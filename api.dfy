/**
 * The REST route handlers over an in-memory database of the four
 * collections. Each handler resolves the caller's session (given here as a
 * parameter), then performs one query or one write scoped to the caller.
 */
module Api {
  import opened Wrappers
  import opened Documents
  import opened Seqs
  import opened UserModel
  import opened ProjectModel
  import opened BidModel
  import opened PlotModel

  /** The authenticated session: the caller's user id and role. */
  datatype Caller = Caller(id: Id, userType: string)

  /** The body of a registration request. */
  datatype RegisterInput = RegisterInput(
    email: Option<string>,
    password: Option<string>,
    name: Option<string>,
    userType: Option<string>)

  /** A bid with `projectId` expanded to the project it names (`populate("projectId")`). */
  datatype BidWithProject = BidWithProject(bid: Bid, project: Option<Project>)

  /** A bid with `contractorId` expanded to the contractor's public record. */
  datatype BidWithContractor = BidWithContractor(bid: Bid, contractor: Option<PublicUser>)

  /** A bid with `contractorId` expanded to the whole stored user document. */
  datatype BidWithContractorDoc = BidWithContractorDoc(bid: Bid, contractor: Option<User>)

  /** JSON response bodies. */
  datatype Body =
    | Message(error: string)
    | UserJson(user: PublicUser)
    | ProfileJson(profile: Option<PublicUser>)
    | UsersJson(users: seq<PublicUser>)
    | ProjectJson(project: Project)
    | ProjectsJson(projects: seq<Project>)
    | BidJson(bid: Bid)
    | ContractorBidsJson(withProjects: seq<BidWithProject>)
    | OwnerBidsJson(withContractors: seq<BidWithContractorDoc>)

  datatype Response = Response(status: int, body: Body)

  const Unauthorized: Response := Response(401, Message("Unauthorized"))
  const UserExists: Response := Response(400, Message("User already exists"))
  const CreateUserFailed: Response := Response(500, Message("Error creating user"))
  const CreateProjectFailed: Response := Response(500, Message("Failed to create project"))
  const CreateBidFailed: Response := Response(500, Message("Failed to create bid"))
  const UpdateProfileFailed: Response := Response(500, Message("Failed to update user profile"))

  // ---------------------------------------------------------------------
  // Queries
  // ---------------------------------------------------------------------

  /** `{ userId: id }` on projects. */
  function OwnedBy(id: Id): Project -> bool {
    (p: Project) => p.userId == Some(id)
  }

  /** `{ contractorId: id }` on bids. */
  function ByContractor(id: Id): Bid -> bool {
    (b: Bid) => b.contractorId == Some(id)
  }

  /** `{ userType: { $in: ["contractor", "builder"] } }`. */
  predicate ListedType(userType: Option<string>) {
    userType == Some("contractor") || userType == Some("builder")
  }

  /** The query on stored users. */
  function Listed(u: User): bool {
    ListedType(u.userType)
  }

  /** The same query read on the public records. */
  function ListedPublic(u: PublicUser): bool {
    ListedType(u.userType)
  }

  /** `Project.find({ userId: id }).distinct("_id")`. */
  function OwnedProjectIds(projects: seq<Project>, id: Id): (ids: set<Id>)
    ensures forall x :: x in ids <==>
              exists i :: 0 <= i < |projects| && projects[i].userId == Some(id) && projects[i].id == x
  {
    set i | 0 <= i < |projects| && projects[i].userId == Some(id) :: projects[i].id
  }

  /** `{ projectId: { $in: ids } }` on bids. */
  function OnProjects(ids: set<Id>): Bid -> bool {
    (b: Bid) => b.projectId.Some? && b.projectId.value in ids
  }

  /** The relational reading of the owner's bid listing: the bid is on a project the owner has. */
  ghost function OnOwnedProject(projects: seq<Project>, id: Id): Bid -> bool {
    (b: Bid) => exists i :: 0 <= i < |projects| && projects[i].userId == Some(id) && b.projectId == Some(projects[i].id)
  }

  /** The two-step id-set join selects the same bids as the relational join. */
  lemma OwnerJoinAgrees(projects: seq<Project>, id: Id, b: Bid)
    ensures OnProjects(OwnedProjectIds(projects, id))(b) == OnOwnedProject(projects, id)(b)
  {
  }

  /** The public record of the user with this id, if there is one. */
  function PublicById(users: seq<User>, id: Option<Id>): (r: Option<PublicUser>)
    ensures r.Some? ==> exists i :: 0 <= i < |users| && Some(users[i].id) == id && r.value == WithoutPassword(users[i])
    ensures r.None? ==> id.None? || forall i :: 0 <= i < |users| ==> users[i].id != id.value
  {
    if id.None? then None
    else match FindById(users, id.value)
      case None => None
      case Some(i) => Some(WithoutPassword(users[i]))
  }

  /** `populate("projectId")`: a missing project becomes null. */
  function PopulateProject(projects: seq<Project>): (r: Bid -> BidWithProject)
    ensures forall b :: r(b).bid == b
    ensures forall b :: r(b).project.Some? ==> r(b).project.value in projects && b.projectId == Some(r(b).project.value.id)
    ensures forall b :: r(b).project.None? ==>
              b.projectId.None? || forall j :: 0 <= j < |projects| ==> projects[j].id != b.projectId.value
  {
    (b: Bid) => BidWithProject(b, if b.projectId.Some? then FindProject(projects, b.projectId.value) else None)
  }

  /** `populate("contractorId")`, showing the contractor without the password. */
  function PopulateContractor(users: seq<User>): (r: Bid -> BidWithContractor)
    ensures forall b :: r(b).bid == b
    ensures forall b :: r(b).contractor.Some? ==>
              exists i :: 0 <= i < |users| && b.contractorId == Some(users[i].id) &&
                          r(b).contractor.value == WithoutPassword(users[i])
    ensures forall b :: r(b).contractor.None? ==>
              b.contractorId.None? || forall j :: 0 <= j < |users| ==> users[j].id != b.contractorId.value
  {
    (b: Bid) => BidWithContractor(b, PublicById(users, b.contractorId))
  }

  /** `populate("contractorId")` as the route calls it: the whole user document. */
  function PopulateContractorAsWritten(users: seq<User>, b: Bid): (r: Option<User>)
    ensures r.Some? ==> r.value in users && b.contractorId == Some(r.value.id)
    ensures r.None? ==> b.contractorId.None? || forall j :: 0 <= j < |users| ==> users[j].id != b.contractorId.value
  {
    if b.contractorId.None? then None
    else match FindById(users, b.contractorId.value)
      case None => None
      case Some(i) => Some(users[i])
  }

  /** The as-written expansion as a mapping over bids, for `Map`. */
  function PopulateContractorDoc(users: seq<User>): (r: Bid -> BidWithContractorDoc)
    ensures forall b :: r(b).bid == b && r(b).contractor == PopulateContractorAsWritten(users, b)
  {
    (b: Bid) => BidWithContractorDoc(b, PopulateContractorAsWritten(users, b))
  }

  /**
   * The two expansions find the same contractor; the corrected one differs
   * from the one the route uses only in leaving the password out.
   */
  lemma PopulateAgreesUpToPassword(users: seq<User>, b: Bid)
    ensures PopulateContractor(users)(b).contractor ==
              match PopulateContractorAsWritten(users, b)
              case None => None
              case Some(u) => Some(WithoutPassword(u))
  {
  }

  /**
   * What the owner's listing exposes as written: the populated contractor is
   * the stored document, so its password hash reaches the project owner.
   */
  lemma OwnerListingExposesHash()
    ensures var u := User(7, Some("C"), Some("c@x.com"), Some("$2a$10$hash"), Some("contractor"), None);
            var b := Bid(9, Some(3), Some(7), Some(100), None, Some("Pending"));
            PopulateContractorAsWritten([u], b) == Some(u) && u.password == Some("$2a$10$hash")
  {
  }

  function ProjectViewBid(v: BidWithProject): Bid { v.bid }

  function ContractorViewBid(v: BidWithContractor): Bid { v.bid }

  function ContractorDocViewBid(v: BidWithContractorDoc): Bid { v.bid }

  /** The id-set query the owner's listing runs selects the bids on the owner's projects. */
  lemma OwnerQuerySelects(projects: seq<Project>, bids: seq<Bid>, id: Id)
    ensures Selects(Filter(bids, OnProjects(OwnedProjectIds(projects, id))), bids, OnOwnedProject(projects, id))
  {
    var ids := OwnedProjectIds(projects, id);
    forall i | 0 <= i < |bids|
      ensures OnProjects(ids)(bids[i]) == OnOwnedProject(projects, id)(bids[i])
    {
      OwnerJoinAgrees(projects, id, bids[i]);
    }
    SelectsExt(Filter(bids, OnProjects(ids)), bids, OnProjects(ids), OnOwnedProject(projects, id));
  }

  /**
   * The owner's bid listing as evidently intended: the bids on the owner's
   * projects, each with the contractor's public record and no password.
   */
  function OwnerBidsCorrected(projects: seq<Project>, bids: seq<Bid>, users: seq<User>, id: Id): (r: seq<BidWithContractor>)
    ensures Selects(Map(r, ContractorViewBid), bids, OnOwnedProject(projects, id))
    ensures forall i :: 0 <= i < |r| ==> r[i].contractor == PublicById(users, r[i].bid.contractorId)
  {
    var onOwned := Filter(bids, OnProjects(OwnedProjectIds(projects, id)));
    OwnerQuerySelects(projects, bids, id);
    MapInverse(onOwned, PopulateContractor(users), ContractorViewBid);
    Map(onOwned, PopulateContractor(users))
  }

  // ---------------------------------------------------------------------
  // The database
  // ---------------------------------------------------------------------

  /** The four collections, each a sequence of documents in insertion order. */
  class Store {
    var users: seq<User>
    var projects: seq<Project>
    var bids: seq<Bid>
    var plots: seq<Plot>
    /** The next fresh document id. */
    var nextId: Id

    /**
     * What every handler keeps: unique emails (the `unique` index), unique
     * user ids below nextId, and schema-valid projects, bids and plots.
     */
    ghost predicate Valid()
      reads this
    {
      && EmailsUnique(users)
      && (forall i, j :: 0 <= i < j < |users| ==> users[i].id != users[j].id)
      && (forall i :: 0 <= i < |users| ==> users[i].id < nextId)
      && (forall i :: 0 <= i < |projects| ==> ValidProject(projects[i]))
      && (forall i :: 0 <= i < |bids| ==> ValidBid(bids[i]))
      && (forall i :: 0 <= i < |plots| ==> ValidPlot(plots[i]))
    }

    constructor ()
      ensures Valid()
      ensures users == [] && projects == [] && bids == [] && plots == []
    {
      users, projects, bids, plots := [], [], [], [];
      nextId := 0;
    }

    /**
     * POST /api/auth/register. A taken email is refused with 400; a missing
     * password makes hashing fail and a schema violation makes the insert
     * fail, both with 500; otherwise the user is stored with the hashed
     * password and returned without it.
     */
    method Register(input: RegisterInput, hash: string -> string) returns (resp: Response)
      requires Valid()
      modifies this
      ensures Valid()
      ensures projects == old(projects) && bids == old(bids) && plots == old(plots)
      ensures EmailTaken(old(users), input.email) ==> resp == UserExists && users == old(users)
      ensures !EmailTaken(old(users), input.email) && input.password.None? ==>
                resp == CreateUserFailed && users == old(users)
      ensures !EmailTaken(old(users), input.email) && input.password.Some? ==>
                var u := User(old(nextId), input.name, input.email, Some(hash(input.password.value)),
                              input.userType, None);
                if ValidUser(u) then resp == Response(201, UserJson(WithoutPassword(u))) && users == old(users) + [u]
                else resp == CreateUserFailed && users == old(users)
      ensures resp.status in {201, 400, 500}
      ensures resp.status == 201 <==> |users| == |old(users)| + 1
      ensures users[..|old(users)|] == old(users)
    {
      if EmailTaken(users, input.email) {
        return UserExists;
      }
      if input.password.None? {
        return CreateUserFailed;
      }
      var u := User(nextId, input.name, input.email, Some(hash(input.password.value)), input.userType, None);
      if !ValidUser(u) {
        return CreateUserFailed;
      }
      AppendEmailsUnique(users, u);
      users := users + [u];
      nextId := nextId + 1;
      resp := Response(201, UserJson(WithoutPassword(u)));
    }

    /** GET /api/projects: the caller's projects, in stored order. */
    method ListProjects(session: Option<Caller>) returns (resp: Response)
      ensures session.None? ==> resp == Unauthorized
      ensures session.Some? ==>
                resp.status == 200 && resp.body.ProjectsJson? &&
                Selects(resp.body.projects, projects, OwnedBy(session.value.id))
      ensures session.Some? ==>
                forall i :: 0 <= i < |projects| && projects[i].userId == Some(session.value.id) ==>
                  projects[i] in resp.body.projects
    {
      if session.None? {
        return Unauthorized;
      }
      resp := Response(200, ProjectsJson(Filter(projects, OwnedBy(session.value.id))));
    }

    /**
     * POST /api/projects: the body's fields with `userId` replaced by the
     * caller's id; stored and returned with 201 when the schema accepts it.
     */
    method CreateProject(session: Option<Caller>, input: ProjectInput) returns (resp: Response)
      requires Valid()
      modifies this
      ensures Valid()
      ensures users == old(users) && bids == old(bids) && plots == old(plots)
      ensures session.None? ==> resp == Unauthorized && projects == old(projects)
      ensures session.Some? ==>
                var p := NewProject(old(nextId), input.(userId := Some(session.value.id)));
                if ValidProject(p) then resp == Response(201, ProjectJson(p)) && projects == old(projects) + [p]
                else resp == CreateProjectFailed && projects == old(projects)
      ensures resp.status == 201 ==>
                session.Some? && resp.body.ProjectJson? &&
                resp.body.project.userId == Some(session.value.id) &&
                projects == old(projects) + [resp.body.project]
    {
      if session.None? {
        return Unauthorized;
      }
      var p := NewProject(nextId, input.(userId := Some(session.value.id)));
      if !ValidProject(p) {
        return CreateProjectFailed;
      }
      projects := projects + [p];
      nextId := nextId + 1;
      resp := Response(201, ProjectJson(p));
    }

    /**
     * POST /api/bids: contractors only; the body's fields with
     * `contractorId` replaced by the caller's id.
     */
    method CreateBid(session: Option<Caller>, input: BidInput) returns (resp: Response)
      requires Valid()
      modifies this
      ensures Valid()
      ensures users == old(users) && projects == old(projects) && plots == old(plots)
      ensures session.None? || session.value.userType != "contractor" ==>
                resp == Unauthorized && bids == old(bids)
      ensures session.Some? && session.value.userType == "contractor" ==>
                var b := NewBid(old(nextId), input.(contractorId := Some(session.value.id)));
                if ValidBid(b) then resp == Response(201, BidJson(b)) && bids == old(bids) + [b]
                else resp == CreateBidFailed && bids == old(bids)
      ensures resp.status == 201 ==>
                session.Some? && resp.body.BidJson? &&
                resp.body.bid.contractorId == Some(session.value.id) &&
                resp.body.bid.status.Some? &&
                bids == old(bids) + [resp.body.bid]
    {
      if session.None? || session.value.userType != "contractor" {
        return Unauthorized;
      }
      var b := NewBid(nextId, input.(contractorId := Some(session.value.id)));
      if !ValidBid(b) {
        return CreateBidFailed;
      }
      bids := bids + [b];
      nextId := nextId + 1;
      resp := Response(201, BidJson(b));
    }

    /**
     * GET /api/bids: a contractor sees the bids they made, anyone else the
     * bids on the projects they own; each bid with its reference expanded.
     */
    method ListBids(session: Option<Caller>) returns (resp: Response)
      ensures session.None? ==> resp == Unauthorized
      ensures session.Some? && session.value.userType == "contractor" ==>
                && resp.status == 200 && resp.body.ContractorBidsJson?
                && Selects(Map(resp.body.withProjects, ProjectViewBid), bids, ByContractor(session.value.id))
                && forall i :: 0 <= i < |resp.body.withProjects| ==>
                     resp.body.withProjects[i] == PopulateProject(projects)(resp.body.withProjects[i].bid)
      ensures session.Some? && session.value.userType != "contractor" ==>
                && resp.status == 200 && resp.body.OwnerBidsJson?
                && Selects(Map(resp.body.withContractors, ContractorDocViewBid), bids,
                           OnOwnedProject(projects, session.value.id))
                && forall i :: 0 <= i < |resp.body.withContractors| ==>
                     resp.body.withContractors[i].contractor ==
                       PopulateContractorAsWritten(users, resp.body.withContractors[i].bid)
    {
      if session.None? {
        return Unauthorized;
      }
      var c := session.value;
      if c.userType == "contractor" {
        var mine := Filter(bids, ByContractor(c.id));
        var views := Map(mine, PopulateProject(projects));
        MapInverse(mine, PopulateProject(projects), ProjectViewBid);
        resp := Response(200, ContractorBidsJson(views));
      } else {
        var onOwned := Filter(bids, OnProjects(OwnedProjectIds(projects, c.id)));
        OwnerQuerySelects(projects, bids, c.id);
        var views := Map(onOwned, PopulateContractorDoc(users));
        MapInverse(onOwned, PopulateContractorDoc(users), ContractorDocViewBid);
        resp := Response(200, OwnerBidsJson(views));
      }
    }

    /**
     * GET /api/contractors: every builder and contractor, in stored order,
     * without passwords.
     */
    method ListContractors(session: Option<Caller>) returns (resp: Response)
      ensures session.None? ==> resp == Unauthorized
      ensures session.Some? ==>
                resp.status == 200 && resp.body.UsersJson? &&
                Selects(resp.body.users, Map(users, WithoutPassword), ListedPublic)
      ensures session.Some? ==>
                forall i :: 0 <= i < |users| && Listed(users[i]) ==> WithoutPassword(users[i]) in resp.body.users
      ensures session.Some? ==>
                forall i :: 0 <= i < |resp.body.users| ==>
                  resp.body.users[i].userType in {Some("contractor"), Some("builder")}
    {
      if session.None? {
        return Unauthorized;
      }
      var shown := Map(Filter(users, Listed), WithoutPassword);
      MapFilterCommute(users, WithoutPassword, Listed, ListedPublic);
      forall i | 0 <= i < |users| && Listed(users[i])
        ensures WithoutPassword(users[i]) in shown
      {
        assert Map(users, WithoutPassword)[i] == WithoutPassword(users[i]);
      }
      resp := Response(200, UsersJson(shown));
    }

    /** GET /api/users/profile: the caller's own record without the password; null if absent. */
    method GetProfile(session: Option<Caller>) returns (resp: Response)
      requires Valid()
      ensures session.None? ==> resp == Unauthorized
      ensures session.Some? ==>
                && resp.status == 200 && resp.body.ProfileJson?
                && (resp.body.profile.Some? <==>
                     exists i :: 0 <= i < |users| && users[i].id == session.value.id)
                && forall i :: 0 <= i < |users| && users[i].id == session.value.id ==>
                     resp.body.profile == Some(WithoutPassword(users[i]))
    {
      if session.None? {
        return Unauthorized;
      }
      var k := FindById(users, session.value.id);
      if k.None? {
        return Response(200, ProfileJson(None));
      }
      resp := Response(200, ProfileJson(Some(WithoutPassword(users[k.value]))));
    }

    /**
     * PUT /api/users/profile: the body's fields replace the caller's, with
     * no schema validation, and the updated record is returned without the
     * password. Only the unique email index can refuse the update.
     */
    method UpdateProfile(session: Option<Caller>, patch: UserPatch) returns (resp: Response)
      requires Valid()
      modifies this
      ensures Valid()
      ensures projects == old(projects) && bids == old(bids) && plots == old(plots) && nextId == old(nextId)
      ensures session.None? ==> resp == Unauthorized && users == old(users)
      ensures session.Some? && FindById(old(users), session.value.id).None? ==>
                resp == Response(200, ProfileJson(None)) && users == old(users)
      ensures session.Some? && FindById(old(users), session.value.id).Some? ==>
                var k := FindById(old(users), session.value.id).value;
                var u := ApplyPatch(old(users)[k], patch);
                if EmailTaken(old(users)[..k] + old(users)[k + 1..], u.email)
                then resp == UpdateProfileFailed && users == old(users)
                else resp == Response(200, ProfileJson(Some(WithoutPassword(u)))) && users == old(users)[k := u]
      ensures |users| == |old(users)|
      ensures forall i :: 0 <= i < |users| && (session.None? || old(users)[i].id != session.value.id) ==>
                users[i] == old(users)[i]
    {
      if session.None? {
        return Unauthorized;
      }
      var k := FindById(users, session.value.id);
      if k.None? {
        return Response(200, ProfileJson(None));
      }
      var i := k.value;
      var u := ApplyPatch(users[i], patch);
      var others := users[..i] + users[i + 1..];
      if EmailTaken(others, u.email) {
        return UpdateProfileFailed;
      }
      ReplaceKeepsEmailsUnique(users, i, u);
      users := users[i := u];
      resp := Response(200, ProfileJson(Some(WithoutPassword(u))));
    }
  }

  /** Replacing one user keeps emails unique when no other user has the new email. */
  lemma ReplaceKeepsEmailsUnique(users: seq<User>, k: nat, u: User)
    requires k < |users| && EmailsUnique(users)
    requires !EmailTaken(users[..k] + users[k + 1..], u.email)
    ensures EmailsUnique(users[k := u])
  {
    var others := users[..k] + users[k + 1..];
    var s := users[k := u];
    forall i, j | 0 <= i < j < |s| ensures s[i].email != s[j].email {
      if i == k {
        assert others[j - 1] == users[j];
      } else if j == k {
        assert others[i] == users[i];
      }
    }
  }
}
