/** The User collection's schema (models/User.ts). */
module UserModel {
  import opened Wrappers
  import opened Documents

  const UserTypes: seq<string> := ["buyer", "builder", "contractor"]

  /** A stored user document; `password` holds the hash. */
  datatype User = User(
    id: Id,
    name: Option<string>,
    email: Option<string>,
    password: Option<string>,
    userType: Option<string>,
    image: Option<string>)

  /**
   * UserSchema: email, password and userType are required, userType is one of
   * UserTypes; name and image are optional.
   */
  predicate ValidUser(u: User) {
    && RequiredString(u.email)
    && RequiredString(u.password)
    && RequiredString(u.userType)
    && EnumOk(u.userType, UserTypes)
  }

  /** A valid user has an email, a password and one of the three roles. */
  lemma ValidUserFields(u: User)
    requires ValidUser(u)
    ensures u.email.Some? && u.password.Some? && u.userType.Some?
    ensures u.userType.value in UserTypes
  {
  }

  /** The optional fields do not affect validity. */
  lemma OptionalFieldsFree(u: User, name: Option<string>, image: Option<string>)
    ensures ValidUser(u) <==> ValidUser(u.(name := name, image := image))
  {
  }

  /** A record without name and image can be valid. */
  lemma MinimalUserValid(id: Id)
    ensures ValidUser(User(id, None, Some("a@b.com"), Some("h"), Some("buyer"), None))
  {
  }

  /** The `unique` index on email: no two stored users share an email. */
  ghost predicate EmailsUnique(users: seq<User>) {
    forall i, j :: 0 <= i < j < |users| ==> users[i].email != users[j].email
  }

  /** Some stored user has this email (`findOne({ email })` finds a document). */
  function EmailTaken(users: seq<User>, email: Option<string>): (taken: bool)
    ensures taken <==> exists i :: 0 <= i < |users| && users[i].email == email
  {
    if users == [] then false
    else users[0].email == email || EmailTaken(users[1..], email)
  }

  /** Appending keeps emails unique exactly when the new email is not yet taken. */
  lemma AppendEmailsUnique(users: seq<User>, u: User)
    requires EmailsUnique(users)
    ensures EmailsUnique(users + [u]) <==> !EmailTaken(users, u.email)
  {
    if !EmailTaken(users, u.email) {
      var s := users + [u];
      forall i, j | 0 <= i < j < |s| ensures s[i].email != s[j].email {
        if j == |users| {
          assert s[i] == users[i];
        }
      }
    } else {
      var i :| 0 <= i < |users| && users[i].email == u.email;
      assert (users + [u])[i].email == (users + [u])[|users|].email;
    }
  }

  /** `findById`: the first user with this id, or None. */
  function FindById(users: seq<User>, id: Id): (r: Option<nat>)
    ensures r.Some? ==> r.value < |users| && users[r.value].id == id
    ensures r.Some? ==> forall j :: 0 <= j < r.value ==> users[j].id != id
    ensures r.None? ==> forall j :: 0 <= j < |users| ==> users[j].id != id
  {
    if users == [] then None
    else if users[0].id == id then Some(0)
    else match FindById(users[1..], id)
      case None => None
      case Some(k) => Some(k + 1)
  }

  /** A user as the API shows it: every field but the password. */
  datatype PublicUser = PublicUser(
    id: Id,
    name: Option<string>,
    email: Option<string>,
    userType: Option<string>,
    image: Option<string>)

  /** Puts a password back into a public view. */
  function WithPassword(p: PublicUser, password: Option<string>): User {
    User(p.id, p.name, p.email, password, p.userType, p.image)
  }

  /** `select("-password")` and `const { password: _, ...rest }`. */
  function WithoutPassword(u: User): (r: PublicUser)
    ensures WithPassword(r, u.password) == u
  {
    PublicUser(u.id, u.name, u.email, u.userType, u.image)
  }

  /** The public view carries no information about the password. */
  lemma WithoutPasswordHidesPassword(u: User, password: Option<string>)
    ensures WithoutPassword(u.(password := password)) == WithoutPassword(u)
  {
  }

  /** The fields a profile update may carry; None leaves the field as it is. */
  datatype UserPatch = UserPatch(
    name: Option<string>,
    email: Option<string>,
    password: Option<string>,
    userType: Option<string>,
    image: Option<string>)

  function Override(current: Option<string>, given: Option<string>): Option<string> {
    if given.Some? then given else current
  }

  /**
   * An update document applied by `findByIdAndUpdate` without running the
   * schema's validators: every field the patch carries replaces the stored
   * one, as it is.
   */
  function ApplyPatch(u: User, p: UserPatch): (r: User)
    ensures r.id == u.id
    ensures p == UserPatch(None, None, None, None, None) ==> r == u
    ensures p.password.Some? ==> r.password == p.password
    ensures p.password.None? ==> r.password == u.password
    ensures p.name.Some? ==> r.name == p.name
    ensures p.name.None? ==> r.name == u.name
    ensures p.email.Some? ==> r.email == p.email
    ensures p.email.None? ==> r.email == u.email
    ensures p.userType.Some? ==> r.userType == p.userType
    ensures p.userType.None? ==> r.userType == u.userType
    ensures p.image.Some? ==> r.image == p.image
    ensures p.image.None? ==> r.image == u.image
  {
    User(u.id, Override(u.name, p.name), Override(u.email, p.email),
         Override(u.password, p.password), Override(u.userType, p.userType),
         Override(u.image, p.image))
  }

  /** What a patch gives as password bears on nothing but the stored password. */
  lemma PatchPasswordOnlyTouchesPassword(u: User, p: UserPatch, password: Option<string>)
    ensures WithoutPassword(ApplyPatch(u, p)) == WithoutPassword(ApplyPatch(u, p.(password := password)))
  {
  }

  /** A profile update can leave a valid user violating the schema. */
  lemma PatchSkipsValidation()
    ensures var u := User(0, None, Some("a@b.com"), Some("h"), Some("buyer"), None);
            ValidUser(u) && !ValidUser(ApplyPatch(u, UserPatch(None, None, None, Some("admin"), None)))
  {
  }
}
