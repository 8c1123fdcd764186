/** Runs of the handlers on the seed store, stated as what the caller observes. */
module Scenarios {
  import opened Collections
  import opened Types
  import opened MockData
  import opened Http
  import opened VacationRoutes

  /** Resolving, through PUT /request/:id/status, the last request of the store
      when its id is not used by any earlier one: that request is the one changed. */
  method ResolveLast(store: HrStore, seed: seq<VacationRequest>, x: VacationRequest, status: string,
                     comment: Option<string>, now: string)
    returns (reply: Reply<VacationRequest>)
    requires store.requests == seed + [x]
    requires forall j :: 0 <= j < |seed| ==> seed[j].id != x.id
    requires ParseResolution(Some(status)).Some?
    modifies store`requests
    ensures reply == Ok(200, Resolve(x, ParseResolution(Some(status)).value, comment, now))
    ensures store.requests == seed + [reply.data]
  {
    FindRequestIndexOfFresh(seed, x);
    reply := PutStatus(store, Some(x.id), Some(status), comment, now);
    UpdateLast(seed, x, reply.data);
  }

  /** Алексей Сидоров (id 3, backend) files a vacation request through POST /request,
      on a roster where his id and his team's manager resolve as in the seed. */
  method FileForAlexei(store: HrStore, freshId: int, now: string) returns (created: Reply<VacationRequest>)
    requires FindUserById(store.users, 3) == Some(Alexei)
    requires GetManagerByTeam(store.users, "backend") == Some(Denis)
    modifies store`requests
    ensures created.Ok? && created.code == 201 && created.data.id == freshId
    ensures created.data.status == Pending && created.data.userId == 3 && created.data.userTeam == "backend"
    ensures created.data.managerId == Some(4) && created.data.managerName == Some("Денис")
    ensures store.requests == old(store.requests) + [created.data]
  {
    var body := RequestBody(Some(3), Some("vacation"), Some("Личные обстоятельства"),
                            Some("2025-08-01"), Some("2025-08-15"));
    AdmittedDraft(store.users, body, Alexei, Denis);
    created := PostRequest(store, body, freshId, now);
  }

  /** Approving the last request with comment "ОК", then rejecting it with no comment:
      both calls succeed, and the second keeps the first one's comment. */
  method ApproveThenReject(store: HrStore, seed: seq<VacationRequest>, x: VacationRequest)
    returns (approved: Reply<VacationRequest>, rejected: Reply<VacationRequest>)
    requires store.requests == seed + [x]
    requires forall j :: 0 <= j < |seed| ==> seed[j].id != x.id
    modifies store`requests
    ensures approved.Ok? && approved.code == 200 && approved.data.id == x.id
    ensures approved.data.status == Approved && approved.data.managerComment == Some("ОК")
    ensures rejected.Ok? && rejected.code == 200 && rejected.data.id == x.id
    ensures rejected.data.status == Rejected && rejected.data.managerComment == Some("ОК")
    ensures store.requests == seed + [rejected.data]
  {
    approved := ResolveLast(store, seed, x, "approved", Some("ОК"), "2025-07-02T09:00:00.000Z");
    rejected := ResolveLast(store, seed, approved.data, "rejected", None, "2025-07-03T09:00:00.000Z");
  }

  /** On the seed store a backend employee files a request, which is routed to
      Денис and approved with a comment; a second resolution of the same request
      is accepted as well and turns it into a rejection. */
  method FileThenResolveTwice() returns (created: Reply<VacationRequest>, approved: Reply<VacationRequest>,
                                         rejected: Reply<VacationRequest>)
    ensures created.Ok? && created.code == 201
    ensures created.data.status == Pending && created.data.userTeam == "backend"
    ensures created.data.managerId == Some(4) && created.data.managerName == Some("Денис")
    ensures approved.Ok? && approved.data.id == created.data.id && approved.data.status == Approved
    ensures rejected.Ok? && rejected.data.id == created.data.id && rejected.data.status == Rejected
  {
    var store := new HrStore();
    SeedFindsAlexei();
    SeedBackendManager();
    created := FileForAlexei(store, 1754000000000, "2025-07-01T09:00:00.000Z");
    SeedRequestIds();
    approved, rejected := ApproveThenReject(store, SeedRequests(), created.data);
  }
}
