/** The backend's in-memory data: the seed roster and requests, the directory and
    request queries over them, and the store object whose request list the two
    mutators change in place. */
module MockData {
  import opened Collections
  import opened Types
  import opened Text

  // ---------------------------------------------------------------------------
  // Seed data
  // ---------------------------------------------------------------------------

  const IvanAvatar := "https://images.unsplash.com/photo-1472099645785-5658abf4ff4e?w=150&h=150&fit=crop&crop=face"
  const DalerAvatar := "https://images.unsplash.com/photo-1507003211169-0a1dd7228f2d?w=150&h=150&fit=crop&crop=face"
  const DenisAvatar := "https://images.unsplash.com/photo-1494790108755-2616b612b786?w=150&h=150&fit=crop&crop=face"

  const Ivan := User(1, "Иван Иванов", Employee, "frontend", "ivan@zinda.ai", "+998901234567", 1200, 200,
                    Some(IvanAvatar), SocialLinks(Some("linkedin.com/ivan"), Some("@ivan")),
                    [Document(1, "Passport.pdf", Passport, "2025-01-01T10:00:00Z", None)])
  const Daler := User(2, "Далер Алямов", Manager, "frontend", "daler@zinda.ai", "+998901234568", 2000, 400,
                     Some(DalerAvatar),
                     SocialLinks(Some("linkedin.com/@daler_alyamov"), Some("@@daler_alyamov")),
                     [Document(2, "Contract.pdf", Contract, "2025-01-01T11:00:00Z", None)])
  const Alexei := User(3, "Алексей Сидоров", Employee, "backend", "alex@zinda.ai", "+998901234569", 1500, 300,
                      None, SocialLinks(Some("linkedin.com/alex"), Some("@alex")), [])
  const Denis := User(4, "Денис", Manager, "backend", "denis@zinda.ai", "+998901234570", 2200, 450,
                     Some(DenisAvatar), SocialLinks(Some("linkedin.com/denis"), Some("@denis")), [])

  /** `mockUsers`. */
  function SeedUsers(): seq<User>
  {
    [Ivan, Daler, Alexei, Denis]
  }

  const SummerVacation := VacationRequest(
    1, 1, "Иван Иванов", "frontend", "vacation", "Летний отпуск с семьей", "2025-07-15", "2025-07-30",
    Pending, Some(2), Some("Далер"), "2025-01-01T09:00:00Z", "2025-01-01T09:00:00Z", None)
  const SickLeave := VacationRequest(
    2, 3, "Алексей Сидоров", "backend", "sick", "Болезнь", "2025-01-10", "2025-01-12",
    Approved, Some(4), Some("Денис"), "2025-01-08T10:00:00Z", "2025-01-09T14:00:00Z",
    Some("Одобрено. Выздоравливайте!"))
  const PersonalLeave := VacationRequest(
    3, 3, "Алексей Сидоров", "backend", "vacation", "Отпуск по личным обстоятельствам",
    "2025-08-01", "2025-08-15", Pending, Some(4), Some("Денис"),
    "2025-01-15T11:00:00Z", "2025-01-15T11:00:00Z", None)

  /** `mockVacationRequests`. */
  function SeedRequests(): seq<VacationRequest>
  {
    [SummerVacation, SickLeave, PersonalLeave]
  }

  /** No two roster entries share an id. */
  ghost predicate UniqueIds(users: seq<User>)
  {
    forall i, j :: 0 <= i < j < |users| ==> users[i].id != users[j].id
  }

  /** No two roster entries share an email. */
  ghost predicate UniqueEmails(users: seq<User>)
  {
    forall i, j :: 0 <= i < j < |users| ==> users[i].email != users[j].email
  }

  // ---------------------------------------------------------------------------
  // Directory queries
  // ---------------------------------------------------------------------------

  /** `findUserByEmail`: the first user whose email is exactly `email`
      (case-sensitive, no trimming). */
  function FindUserByEmail(users: seq<User>, email: string): (r: Option<User>)
    ensures r.None? <==> forall u :: u in users ==> u.email != email
    ensures r.Some? ==> exists i :: 0 <= i < |users| && users[i] == r.value && r.value.email == email &&
                                    forall j :: 0 <= j < i ==> users[j].email != email
  {
    Find(users, (u: User) => u.email == email)
  }

  /** `findUserById`: the first user with the given id. */
  function FindUserById(users: seq<User>, id: int): (r: Option<User>)
    ensures r.None? <==> forall u :: u in users ==> u.id != id
    ensures r.Some? ==> exists i :: 0 <= i < |users| && users[i] == r.value && r.value.id == id &&
                                    forall j :: 0 <= j < i ==> users[j].id != id
  {
    Find(users, (u: User) => u.id == id)
  }

  /** `getTeamMembers`: exactly the users of team `team`, each as often as in the roster. */
  function GetTeamMembers(users: seq<User>, team: string): (r: seq<User>)
    ensures forall u :: u in r <==> u in users && u.team == team
    ensures forall u :: multiset(r)[u] == if u.team == team then multiset(users)[u] else 0
  {
    Filter(users, (u: User) => u.team == team)
  }

  /** `getManagerByTeam`: the first manager whose team is `team`. */
  function GetManagerByTeam(users: seq<User>, team: string): (r: Option<User>)
    ensures r.None? <==> forall u :: u in users ==> !(u.role == Manager && u.team == team)
    ensures r.Some? ==> exists i :: 0 <= i < |users| && users[i] == r.value &&
                                    r.value.role == Manager && r.value.team == team &&
                                    forall j :: 0 <= j < i ==> !(users[j].role == Manager && users[j].team == team)
  {
    Find(users, (u: User) => u.role == Manager && u.team == team)
  }

  // ---------------------------------------------------------------------------
  // Request queries
  // ---------------------------------------------------------------------------

  /** `getVacationRequestsByUserId`: every request filed by `userId`, any status. */
  function GetVacationRequestsByUserId(requests: seq<VacationRequest>, userId: int): (r: seq<VacationRequest>)
    ensures forall x :: x in r <==> x in requests && x.userId == userId
    ensures forall x :: multiset(r)[x] == if x.userId == userId then multiset(requests)[x] else 0
  {
    Filter(requests, (x: VacationRequest) => x.userId == userId)
  }

  predicate PendingFor(x: VacationRequest, managerId: int)
  {
    x.managerId == Some(managerId) && x.status == Pending
  }

  /** `getPendingVacationRequestsForManager`: every pending request routed to `managerId`. */
  function GetPendingVacationRequestsForManager(requests: seq<VacationRequest>, managerId: int)
    : (r: seq<VacationRequest>)
    ensures forall x :: x in r <==> x in requests && x.managerId == Some(managerId) && x.status == Pending
    ensures forall x :: multiset(r)[x] == if PendingFor(x, managerId) then multiset(requests)[x] else 0
  {
    Filter(requests, (x: VacationRequest) => PendingFor(x, managerId))
  }

  /** Position of the request `updateVacationRequestStatus` changes: the first with that id. */
  function FindRequestIndex(requests: seq<VacationRequest>, id: int): (r: Option<nat>)
    ensures r.None? <==> forall j :: 0 <= j < |requests| ==> requests[j].id != id
    ensures r.Some? ==> r.value < |requests| && requests[r.value].id == id &&
                        forall j :: 0 <= j < r.value ==> requests[j].id != id
  {
    FirstIndex(requests, (x: VacationRequest) => x.id == id)
  }

  // ---------------------------------------------------------------------------
  // Record construction
  // ---------------------------------------------------------------------------

  /** The fields a caller of `createVacationRequest` supplies. */
  datatype RequestDraft = RequestDraft(
    userId: int, userName: string, userTeam: string, kind: string, reason: string,
    startDate: string, endDate: string, managerId: Option<int>, managerName: Option<string>,
    managerComment: Option<string>)

  /** `r` is the record `createVacationRequest` builds from `d`: every supplied field
      copied, id `freshId`, status pending, created and updated at `now`. */
  ghost predicate BuiltFrom(r: VacationRequest, d: RequestDraft, freshId: int, now: string)
  {
    && r.id == freshId && r.status == Pending && r.createdAt == now && r.updatedAt == now
    && r.userId == d.userId && r.userName == d.userName && r.userTeam == d.userTeam
    && r.kind == d.kind && r.reason == d.reason
    && r.startDate == d.startDate && r.endDate == d.endDate
    && r.managerId == d.managerId && r.managerName == d.managerName
    && r.managerComment == d.managerComment
  }

  /** The record after a resolution: the new status and update time, the comment
      when a non-empty one was given (`if (managerComment)`), every other field as before. */
  function Resolve(x: VacationRequest, status: Status, comment: Option<string>, now: string)
    : (r: VacationRequest)
    ensures r.status == status && r.updatedAt == now
    ensures r.managerComment == if !FalsyText(comment) then comment else x.managerComment
    ensures r.(status := x.status, updatedAt := x.updatedAt, managerComment := x.managerComment) == x
  {
    var y := x.(status := status, updatedAt := now);
    if !FalsyText(comment) then y.(managerComment := comment) else y
  }

  // ---------------------------------------------------------------------------
  // The store
  // ---------------------------------------------------------------------------

  /** The module-level arrays `mockUsers` and `mockVacationRequests`. */
  class HrStore {
    var users: seq<User>
    var requests: seq<VacationRequest>

    /** The store as the process starts. */
    constructor ()
      ensures users == SeedUsers() && requests == SeedRequests()
    {
      users := SeedUsers();
      requests := SeedRequests();
    }

    /** `createVacationRequest`: appends one pending record built from `d`, with id
        `freshId` and both timestamps `now`, and returns it. */
    method CreateVacationRequest(d: RequestDraft, freshId: int, now: string) returns (r: VacationRequest)
      modifies this`requests
      ensures BuiltFrom(r, d, freshId, now)
      ensures requests == old(requests) + [r]
      ensures users == old(users)
    {
      r := VacationRequest(freshId, d.userId, d.userName, d.userTeam, d.kind, d.reason,
                           d.startDate, d.endDate, Pending, d.managerId, d.managerName,
                           now, now, d.managerComment);
      requests := requests + [r];
    }

    /** `updateVacationRequestStatus`: overwrites the first request with id `requestId`
        in place and returns it, or returns None and changes nothing. The prior
        status is not looked at. */
    method UpdateVacationRequestStatus(requestId: int, status: Status, comment: Option<string>, now: string)
      returns (r: Option<VacationRequest>)
      requires status != Pending
      modifies this`requests
      ensures users == old(users)
      ensures r.None? <==> forall j :: 0 <= j < |old(requests)| ==> old(requests)[j].id != requestId
      ensures match FindRequestIndex(old(requests), requestId)
              case None => r.None? && requests == old(requests)
              case Some(i) => r == Some(Resolve(old(requests)[i], status, comment, now)) &&
                              requests == old(requests)[i := r.value]
    {
      var found := FindRequestIndex(requests, requestId);
      match found {
        case None =>
          r := None;
        case Some(i) =>
          var updated := Resolve(requests[i], status, comment, now);
          requests := requests[i := updated];
          r := Some(updated);
      }
    }
  }

  // ---------------------------------------------------------------------------
  // Properties
  // ---------------------------------------------------------------------------

  /** With unique ids, looking up a roster member's id finds that member. */
  lemma FindUserByIdOfMember(users: seq<User>, u: User)
    requires UniqueIds(users)
    requires u in users
    ensures FindUserById(users, u.id) == Some(u)
  {
  }

  /** With unique emails, looking up a roster member's email finds that member. */
  lemma FindUserByEmailOfMember(users: seq<User>, u: User)
    requires UniqueEmails(users)
    requires u in users
    ensures FindUserByEmail(users, u.email) == Some(u)
  {
  }

  /** A record appended with an id no earlier record has is the one a later
      resolution by that id finds. */
  lemma FindRequestIndexOfFresh(requests: seq<VacationRequest>, x: VacationRequest)
    requires forall j :: 0 <= j < |requests| ==> requests[j].id != x.id
    ensures FindRequestIndex(requests + [x], x.id) == Some(|requests|)
  {
    var all := requests + [x];
    assert all[|requests|].id == x.id;
  }

  /** A record appended with an id that an earlier record already has is
      shadowed: a resolution by that id still changes the earlier record. */
  lemma FindRequestIndexShadowed(requests: seq<VacationRequest>, x: VacationRequest, i: nat)
    requires FindRequestIndex(requests, x.id) == Some(i)
    ensures FindRequestIndex(requests + [x], x.id) == Some(i)
  {
    var all := requests + [x];
    assert all[i] == requests[i];
    assert forall j :: 0 <= j < i ==> all[j] == requests[j];
  }

  /** The team lists of two roster segments concatenate: team members come in roster order. */
  lemma GetTeamMembersAppend(a: seq<User>, b: seq<User>, team: string)
    ensures GetTeamMembers(a + b, team) == GetTeamMembers(a, team) + GetTeamMembers(b, team)
  {
    FilterAppend(a, b, (u: User) => u.team == team);
  }

  /** Creating a request adds it to the end of its requester's list and leaves
      every other requester's list as it was. */
  lemma CreateExtendsRequesterList(requests: seq<VacationRequest>, x: VacationRequest, userId: int)
    ensures GetVacationRequestsByUserId(requests + [x], userId) ==
            GetVacationRequestsByUserId(requests, userId) + (if x.userId == userId then [x] else [])
  {
    FilterAppend(requests, [x], (y: VacationRequest) => y.userId == userId);
  }

  /** Creating a request routed to a manager adds it to the end of that manager's
      pending list, and to no one else's. */
  lemma CreateExtendsPendingList(requests: seq<VacationRequest>, x: VacationRequest, managerId: int)
    requires x.status == Pending
    ensures GetPendingVacationRequestsForManager(requests + [x], managerId) ==
            GetPendingVacationRequestsForManager(requests, managerId) +
            (if x.managerId == Some(managerId) then [x] else [])
  {
    FilterAppend(requests, [x], (y: VacationRequest) => PendingFor(y, managerId));
  }

  /** Resolving a request takes it out of every pending list and adds nothing to any. */
  lemma ResolveShrinksPendingLists(requests: seq<VacationRequest>, i: nat, status: Status,
                                   comment: Option<string>, now: string, managerId: int)
    requires i < |requests|
    requires status != Pending
    ensures var after := requests[i := Resolve(requests[i], status, comment, now)];
            forall x :: x in GetPendingVacationRequestsForManager(after, managerId) ==>
                          x in GetPendingVacationRequestsForManager(requests, managerId)
    ensures var after := requests[i := Resolve(requests[i], status, comment, now)];
            Resolve(requests[i], status, comment, now) !in GetPendingVacationRequestsForManager(after, managerId)
  {
    var after := requests[i := Resolve(requests[i], status, comment, now)];
    forall x | x in GetPendingVacationRequestsForManager(after, managerId)
      ensures x in GetPendingVacationRequestsForManager(requests, managerId)
    {
      var j :| 0 <= j < |after| && after[j] == x;
      assert j != i;
      assert requests[j] == x;
    }
  }

  /** Resolving keeps the requester, so every requester's list keeps its length. */
  lemma ResolveKeepsRequesterListLength(requests: seq<VacationRequest>, i: nat, status: Status,
                                        comment: Option<string>, now: string, userId: int)
    requires i < |requests|
    ensures |GetVacationRequestsByUserId(requests[i := Resolve(requests[i], status, comment, now)], userId)|
            == |GetVacationRequestsByUserId(requests, userId)|
  {
    FilterUpdateLength(requests, i, Resolve(requests[i], status, comment, now),
                       (y: VacationRequest) => y.userId == userId);
  }

  /** The seed roster has unique ids and unique emails. */
  lemma SeedUnique()
    ensures UniqueIds(SeedUsers()) && UniqueEmails(SeedUsers())
  {
  }

  /** On the seed data the backend team's manager is Денис (id 4). */
  lemma SeedBackendManager()
    ensures GetManagerByTeam(SeedUsers(), "backend") == Some(Denis)
    ensures Denis.id == 4
  {
  }

  /** The seed requests are numbered 1, 2, 3 in order. */
  lemma SeedRequestIds()
    ensures |SeedRequests()| == 3
    ensures forall j :: 0 <= j < |SeedRequests()| ==> SeedRequests()[j].id == j + 1
  {
  }

  /** On the seed data id 3 is Алексей Сидоров. */
  lemma SeedFindsAlexei()
    ensures FindUserById(SeedUsers(), 3) == Some(Alexei)
  {
  }

  /** On the seed data the only request waiting for manager 4 is request 3. */
  lemma SeedPendingForDenis()
    ensures GetPendingVacationRequestsForManager(SeedRequests(), 4) == [PersonalLeave]
    ensures PersonalLeave.id == 3
  {
  }
}
