/**
 * The user controller of the backend (backend/controllers/userController.js):
 * the order of the registration checks, the partial profile update built
 * field by field, and the wishlist and compare-list toggles with their
 * reads. The Mongo collection is a map from user id to user record; each
 * handler returns the JSON reply it sends and the collection afterwards.
 */
module UserController {
  import opened Wrappers
  import opened Text
  import opened Seqs

  /** A stored user: the profile's string fields, the two product lists (possibly missing) and `lastUpdated`. */
  datatype User = User(profile: map<String, String>, wishlist: Option<seq<String>>,
                       compareList: Option<seq<String>>, lastUpdated: int)

  type Users = map<String, User>

  /** The `{ success, … }` replies. `Threw` is the message a runtime error carries into the `catch`. */
  datatype Reply =
    | Failure(message: String)
    | Threw
    | Toggled(list: seq<String>, action: String)
    | Listed(list: seq<String>)
    | Updated(message: String, profile: map<String, String>, lastUpdated: int)

  // Registration

  /** What `registerUser` stores: `profileImage || ""`. */
  datatype NewUser = NewUser(name: String, email: String, profileImage: String)

  datatype Registration = Rejected(message: String) | Created(user: NewUser)

  /**
   * `registerUser`'s checks in their order: an email already taken, then an
   * invalid email, then a password shorter than 6. `emailTaken` is the
   * lookup's answer and `validEmail` the email validator's.
   */
  function Register(emailTaken: bool, validEmail: bool, name: String, email: String,
                    password: String, profileImage: Option<String>): (r: Registration)
    ensures r == Rejected("User already exists") <==> emailTaken
    ensures r == Rejected("Please enter a valid email") <==> !emailTaken && !validEmail
    ensures r == Rejected("Please enter a password") <==> !emailTaken && validEmail && |password| < 6
    ensures r.Created? <==> !emailTaken && validEmail && |password| >= 6
    ensures r.Created? ==> r.user.name == name && r.user.email == email
    ensures r.Created? ==> (r.user.profileImage == "" <==> profileImage.None? || profileImage.value == "")
    ensures r.Created? && profileImage.Some? ==> r.user.profileImage == profileImage.value
  {
    if emailTaken then Rejected("User already exists")
    else if !validEmail then Rejected("Please enter a valid email")
    else if |password| < 6 then Rejected("Please enter a password")
    else Created(NewUser(name, email, profileImage.GetOr("")))
  }

  // Profile update

  /** The label of the alternative delivery address: the one field copied even when it is "". */
  const AltLabel: String := "deliveryAltLabel"

  /** The fields `updateUserProfile` may copy, in the order of its `if` chain. */
  const ProfileFields: seq<String> := [
    "name", "phone", "address", "profileImage", "jobTitle", "company", "bio",
    "location", "website", "linkedin", "github", "twitter",
    "deliveryStreet", "deliveryCity", "deliveryState", "deliveryZipcode", "deliveryCountry",
    AltLabel,
    "deliveryAltStreet", "deliveryAltCity", "deliveryAltState", "deliveryAltZipcode", "deliveryAltCountry"]

  /** Field `f` goes into the update: it was sent, and it is truthy or it is the alternative label. */
  predicate Copied(body: map<String, String>, f: String) {
    f in body && (body[f] != "" || f == AltLabel)
  }

  /** The update built from the listed fields `fs` of the request body. */
  function Picked(body: map<String, String>, fs: seq<String>): (r: map<String, String>)
    ensures forall f :: f in r <==> f in fs && Copied(body, f)
    ensures forall f :: f in r ==> f in body && r[f] == body[f]
  {
    map f | f in fs && Copied(body, f) :: body[f]
  }

  /** `updateData` carries exactly the profile fields sent with a truthy value, and the alternative label whenever it was sent. */
  lemma UpdateDataExact(body: map<String, String>, f: String)
    ensures f in Picked(body, ProfileFields) <==> f in ProfileFields && f in body && (body[f] != "" || f == AltLabel)
    ensures f in Picked(body, ProfileFields) ==> Picked(body, ProfileFields)[f] == body[f]
    ensures AltLabel in body ==> Picked(body, ProfileFields)[AltLabel] == body[AltLabel]
  {
    assert AltLabel == ProfileFields[17];
  }

  /** The `updateData` object: the copied fields and `lastUpdated`, `now` standing for `new Date()`. */
  datatype UpdateData = UpdateData(fields: map<String, String>, lastUpdated: int)

  /** The `if` chain: one guarded assignment per field, in order, then `lastUpdated`. */
  method BuildUpdateData(body: map<String, String>, now: int) returns (u: UpdateData)
    ensures u.fields == Picked(body, ProfileFields)
    ensures u.lastUpdated == now
  {
    var fields: map<String, String> := map[];
    var i := 0;
    while i < |ProfileFields|
      invariant 0 <= i <= |ProfileFields|
      invariant fields == Picked(body, ProfileFields[..i])
    {
      var f := ProfileFields[i];
      assert ProfileFields[..i + 1] == ProfileFields[..i] + [f];
      PickedStep(body, ProfileFields[..i], f);
      if Copied(body, f) {
        fields := fields[f := body[f]];
      }
      i := i + 1;
    }
    assert ProfileFields[..i] == ProfileFields;
    u := UpdateData(fields, now);
  }

  /** One more field of the chain: it is added when copied, and nothing else changes. */
  lemma PickedStep(body: map<String, String>, fs: seq<String>, f: String)
    ensures Copied(body, f) ==> Picked(body, fs + [f]) == Picked(body, fs)[f := body[f]]
    ensures !Copied(body, f) ==> Picked(body, fs + [f]) == Picked(body, fs)
  {
    var a, b := Picked(body, fs + [f]), Picked(body, fs);
    if Copied(body, f) {
      assert forall g :: g in a <==> g in b[f := body[f]];
    } else {
      assert forall g :: g in a <==> g in b;
    }
  }

  /** `findByIdAndUpdate` with plain fields: each listed field is set, every other field is kept. */
  function ApplyUpdate(user: User, u: UpdateData): (r: User)
    ensures forall f :: f in u.fields ==> f in r.profile && r.profile[f] == u.fields[f]
    ensures forall f :: f !in u.fields ==> (f in r.profile <==> f in user.profile)
    ensures forall f :: f !in u.fields && f in user.profile ==> r.profile[f] == user.profile[f]
    ensures r.wishlist == user.wishlist && r.compareList == user.compareList
    ensures r.lastUpdated == u.lastUpdated
  {
    user.(profile := user.profile + u.fields, lastUpdated := u.lastUpdated)
  }

  /**
   * `updateUserProfile`: the stored user takes the update and the reply
   * shows the result; an unknown id leaves the collection as it is.
   */
  function UpdateProfile(users: Users, userId: String, body: map<String, String>, now: int): (out: (Reply, Users))
    ensures userId !in users ==> out == (Failure("User not found"), users)
    ensures userId in users ==>
      out.1 == users[userId := ApplyUpdate(users[userId], UpdateData(Picked(body, ProfileFields), now))] &&
      out.0 == Updated("Profile updated successfully", out.1[userId].profile - {"password"}, now)
    ensures out.0.Updated? ==> "password" !in out.0.profile
    ensures out.0.Updated? ==> forall f :: f != "password" ==> (f in out.0.profile <==> f in out.1[userId].profile)
  {
    if userId !in users then (Failure("User not found"), users)
    else
      var user := ApplyUpdate(users[userId], UpdateData(Picked(body, ProfileFields), now));
      (Updated("Profile updated successfully", user.profile - {"password"}, now), users[userId := user])
  }

  /**
   * A field the request leaves out, sends empty (other than the alternative
   * label) or that is not a profile field, such as the email, keeps its
   * stored value; so do the lists and every other user.
   */
  lemma UpdateKeepsTheRest(users: Users, userId: String, body: map<String, String>, now: int, f: String)
    requires userId in users
    requires f !in body || (body[f] == "" && f != AltLabel) || f !in ProfileFields
    ensures var after := UpdateProfile(users, userId, body, now).1;
      after.Keys == users.Keys &&
      (f in after[userId].profile <==> f in users[userId].profile) &&
      (f in users[userId].profile ==> after[userId].profile[f] == users[userId].profile[f]) &&
      after[userId].wishlist == users[userId].wishlist &&
      (forall id :: id in users && id != userId ==> after[id] == users[id])
  {
  }

  /** The email and the password are not on the list, so no profile update changes them. */
  lemma ProfileUpdateKeepsCredentials(users: Users, userId: String, body: map<String, String>, now: int)
    requires userId in users
    ensures var before, after := users[userId].profile, UpdateProfile(users, userId, body, now).1[userId].profile;
      ("email" in after <==> "email" in before) && ("email" in before ==> after["email"] == before["email"]) &&
      ("password" in after <==> "password" in before) && ("password" in before ==> after["password"] == before["password"])
  {
    CredentialsNotListed();
    UpdateKeepsTheRest(users, userId, body, now, "email");
    UpdateKeepsTheRest(users, userId, body, now, "password");
  }

  lemma CredentialsNotListed()
    ensures "email" !in ProfileFields && "password" !in ProfileFields
  {
  }

  // Wishlist and compare list

  /** `x => x !== id` */
  function Other(id: String): String -> bool {
    x => x != id
  }

  /** `$pull`: every occurrence of `id` removed, the rest in order. */
  function Pull(list: seq<String>, id: String): (r: seq<String>)
    ensures id !in r
    ensures forall x :: x != id ==> (x in r <==> x in list)
    ensures Subseq(r, list)
  {
    FilterSubseq(list, Other(id));
    Filter(list, Other(id))
  }

  /** `$addToSet`: `id` appended unless already present. */
  function AddToSet(list: seq<String>, id: String): (r: seq<String>)
    ensures id in list ==> r == list
    ensures id !in list ==> r == list + [id]
  {
    if id in list then list else list + [id]
  }

  /** The toggle decision: remove a listed product, add an unlisted one, and say which. */
  function ToggleList(list: seq<String>, id: String): (r: (seq<String>, String))
    ensures id in list ==> r.1 == "removed" && id !in r.0 && forall x :: x != id ==> (x in r.0 <==> x in list)
    ensures id !in list ==> r.1 == "added" && r.0 == list + [id]
  {
    if id in list then (Pull(list, id), "removed") else (AddToSet(list, id), "added")
  }

  /** Toggling twice restores membership; starting from an unlisted product it restores the very list. */
  lemma ToggleTwice(list: seq<String>, id: String)
    ensures forall x :: x in ToggleList(ToggleList(list, id).0, id).0 <==> x in list
    ensures id !in list ==> ToggleList(ToggleList(list, id).0, id).0 == list
    ensures ToggleList(ToggleList(list, id).0, id).1 != ToggleList(list, id).1
  {
    if id !in list {
      FilterAppend(list, [id], Other(id));
      FilterAll(list, Other(id));
      assert Filter([id], Other(id)) == [];
    }
  }

  /** Which list a request toggles or reads. */
  datatype ListKind = WishlistKind | CompareKind

  function ListOf(u: User, k: ListKind): Option<seq<String>> {
    match k
    case WishlistKind => u.wishlist
    case CompareKind => u.compareList
  }

  function WithList(u: User, k: ListKind, l: seq<String>): (r: User)
    ensures ListOf(r, k) == Some(l)
    ensures forall k' :: k' != k ==> ListOf(r, k') == ListOf(u, k')
    ensures r.profile == u.profile && r.lastUpdated == u.lastUpdated
  {
    match k
    case WishlistKind => u.(wishlist := Some(l))
    case CompareKind => u.(compareList := Some(l))
  }

  /**
   * `toggleWishlist` / `toggleCompare`: a missing product id fails before the
   * user is looked up, an unknown user fails next; then the product is pulled
   * or added. A user whose list is missing makes `includes` throw.
   */
  function Toggle(users: Users, userId: String, productId: String, k: ListKind): (out: (Reply, Users))
    ensures productId == "" ==> out == (Failure("productId required"), users)
    ensures productId != "" && userId !in users ==> out == (Failure("User not found"), users)
    ensures productId != "" && userId in users && ListOf(users[userId], k).None? ==> out == (Threw, users)
    ensures out.0.Toggled? <==> productId != "" && userId in users && ListOf(users[userId], k).Some?
    ensures out.0.Toggled? ==>
      var l := ListOf(users[userId], k).value;
      out.0 == Toggled(ToggleList(l, productId).0, ToggleList(l, productId).1) &&
      out.1 == users[userId := WithList(users[userId], k, out.0.list)]
  {
    if productId == "" then (Failure("productId required"), users)
    else if userId !in users then (Failure("User not found"), users)
    else match ListOf(users[userId], k)
      case None => (Threw, users)
      case Some(l) =>
        var t := ToggleList(l, productId);
        (Toggled(t.0, t.1), users[userId := WithList(users[userId], k, t.0)])
  }

  /** Two toggles of the same product leave that user's list with the members it had, and the other list untouched. */
  lemma ToggleRequestTwice(users: Users, userId: String, productId: String, k: ListKind)
    requires productId != "" && userId in users && ListOf(users[userId], k).Some?
    ensures var once := Toggle(users, userId, productId, k);
      var twice := Toggle(once.1, userId, productId, k);
      twice.0.Toggled? &&
      (forall x :: x in twice.0.list <==> x in ListOf(users[userId], k).value) &&
      (forall k' :: k' != k ==> ListOf(twice.1[userId], k') == ListOf(users[userId], k')) &&
      twice.1.Keys == users.Keys
  {
    ToggleTwice(ListOf(users[userId], k).value, productId);
  }

  /** `getWishlist` / `getCompare`: the list, or [] when it is missing. */
  function GetList(users: Users, userId: String, k: ListKind): (r: Reply)
    ensures userId !in users ==> r == Failure("User not found")
    ensures userId in users && ListOf(users[userId], k).None? ==> r == Listed([])
    ensures userId in users && ListOf(users[userId], k).Some? ==> r == Listed(ListOf(users[userId], k).value)
  {
    if userId !in users then Failure("User not found") else Listed(ListOf(users[userId], k).GetOr([]))
  }

  /** After a toggle, reading the list gives what the toggle replied. */
  lemma ReadAfterToggle(users: Users, userId: String, productId: String, k: ListKind)
    requires Toggle(users, userId, productId, k).0.Toggled?
    ensures GetList(Toggle(users, userId, productId, k).1, userId, k) == Listed(Toggle(users, userId, productId, k).0.list)
  {
  }
}
