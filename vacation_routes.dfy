/** The vacation endpoints: two queries, request creation and resolution. Each
    handler is its chain of guards, in source order, followed by the store call. */
module VacationRoutes {
  import opened Collections
  import opened Types
  import opened Text
  import opened Http
  import opened MockData

  const InvalidUserId := "Неверный ID пользователя"
  const InvalidManagerId := "Неверный ID менеджера"
  const AllFieldsRequired := "Все поля обязательны"
  const UserNotFound := "Пользователь не найден"
  const TeamManagerNotFound := "Менеджер команды не найден"
  const InvalidRequestId := "Неверный ID заявки"
  const InvalidStatus := "Неверный статус"
  const RequestNotFound := "Заявка не найдена"

  /** GET /requests?userId=: the requester's requests, or 400 when the id does not parse. */
  function GetRequests(requests: seq<VacationRequest>, userId: Option<int>): (r: Reply<seq<VacationRequest>>)
    ensures r.Fail? <==> userId.None?
    ensures r.Fail? ==> r == Fail(400, InvalidUserId)
    ensures r.Ok? ==> r.code == 200 && r.data == GetVacationRequestsByUserId(requests, userId.value)
    ensures r.Ok? ==> forall x :: x in r.data <==> x in requests && x.userId == userId.value
  {
    match userId
    case None => Fail(400, InvalidUserId)
    case Some(id) => Ok(200, GetVacationRequestsByUserId(requests, id))
  }

  /** GET /pending?managerId=: the manager's pending requests, or 400 when the id does not parse. */
  function GetPending(requests: seq<VacationRequest>, managerId: Option<int>): (r: Reply<seq<VacationRequest>>)
    ensures r.Fail? <==> managerId.None?
    ensures r.Fail? ==> r == Fail(400, InvalidManagerId)
    ensures r.Ok? ==> r.code == 200 && r.data == GetPendingVacationRequestsForManager(requests, managerId.value)
    ensures r.Ok? ==> forall x :: x in r.data <==>
                        x in requests && x.managerId == managerId && x.status == Pending
  {
    match managerId
    case None => Fail(400, InvalidManagerId)
    case Some(id) => Ok(200, GetPendingVacationRequestsForManager(requests, id))
  }

  /** The JSON body of POST /request; an absent field is None. */
  datatype RequestBody = RequestBody(userId: Option<int>, kind: Option<string>, reason: Option<string>,
                                     startDate: Option<string>, endDate: Option<string>)

  /** Some required field is falsy (`!userId || !type || ...`). */
  predicate MissingField(b: RequestBody)
  {
    FalsyId(b.userId) || FalsyText(b.kind) || FalsyText(b.reason) ||
    FalsyText(b.startDate) || FalsyText(b.endDate)
  }

  /** The outcome of the guards of POST /request: an error reply, or the draft to store. */
  datatype Admission = Refused(code: int, error: string) | Admitted(draft: RequestDraft)

  /** The guards of POST /request, in order: missing field, unknown requester, no
      manager for the requester's team. An admitted draft snapshots the requester's
      name and team and the team manager's id and name. */
  function AdmitRequest(users: seq<User>, body: RequestBody): (a: Admission)
    ensures MissingField(body) ==> a == Refused(400, AllFieldsRequired)
    ensures !MissingField(body) ==>
              (a == Refused(404, UserNotFound) <==> forall u :: u in users ==> u.id != body.userId.value)
    ensures !MissingField(body) && FindUserById(users, body.userId.value).Some? ==>
              var team := FindUserById(users, body.userId.value).value.team;
              (a == Refused(400, TeamManagerNotFound) <==>
                 forall m :: m in users ==> !(m.role == Manager && m.team == team))
    ensures a.Admitted? ==>
              && !MissingField(body)
              && exists u, m :: u in users && m in users && u.id == body.userId.value &&
                              m.role == Manager && m.team == u.team &&
                              a.draft == RequestDraft(u.id, u.name, u.team, body.kind.value, body.reason.value,
                                                      body.startDate.value, body.endDate.value,
                                                      Some(m.id), Some(m.name), None)
    ensures a.Admitted? ==>
              var u := FindUserById(users, body.userId.value).value;
              var m := GetManagerByTeam(users, u.team).value;
              a.draft.userName == u.name && a.draft.userTeam == u.team &&
              a.draft.managerId == Some(m.id) && a.draft.managerName == Some(m.name)
  {
    if MissingField(body) then Refused(400, AllFieldsRequired)
    else match FindUserById(users, body.userId.value)
      case None => Refused(404, UserNotFound)
      case Some(u) =>
        match GetManagerByTeam(users, u.team)
        case None => Refused(400, TeamManagerNotFound)
        case Some(m) =>
          Admitted(RequestDraft(body.userId.value, u.name, u.team, body.kind.value, body.reason.value,
                                body.startDate.value, body.endDate.value, Some(m.id), Some(m.name), None))
  }

  /** A complete body whose requester and team manager both resolve is admitted, with
      the requester's and the manager's names and the manager's id copied in. */
  lemma AdmittedDraft(users: seq<User>, body: RequestBody, u: User, m: User)
    requires !MissingField(body)
    requires FindUserById(users, body.userId.value) == Some(u)
    requires GetManagerByTeam(users, u.team) == Some(m)
    ensures AdmitRequest(users, body) ==
            Admitted(RequestDraft(u.id, u.name, u.team, body.kind.value, body.reason.value,
                                  body.startDate.value, body.endDate.value, Some(m.id), Some(m.name), None))
  {
  }

  /** POST /request: on admission, 201 with the stored record, which is appended to
      the store; on refusal, the error and an unchanged store. */
  method PostRequest(store: HrStore, body: RequestBody, freshId: int, now: string)
    returns (reply: Reply<VacationRequest>)
    modifies store`requests
    ensures store.users == old(store.users)
    ensures match AdmitRequest(old(store.users), body)
            case Refused(c, e) => reply == Fail(c, e) && store.requests == old(store.requests)
            case Admitted(d) => reply.Ok? && reply.code == 201 && BuiltFrom(reply.data, d, freshId, now) &&
                                store.requests == old(store.requests) + [reply.data]
  {
    var admission := AdmitRequest(store.users, body);
    match admission {
      case Refused(c, e) =>
        reply := Fail(c, e);
      case Admitted(d) =>
        var created := store.CreateVacationRequest(d, freshId, now);
        reply := Ok(201, created);
    }
  }

  /** The `status` of PUT /request/:id/status, accepted only when it is one of the
      two resolutions. */
  function ParseResolution(status: Option<string>): (r: Option<Status>)
    ensures r.Some? <==> status == Some("approved") || status == Some("rejected")
    ensures r == Some(Approved) <==> status == Some("approved")
    ensures r == Some(Rejected) <==> status == Some("rejected")
  {
    if status == Some("approved") then Some(Approved)
    else if status == Some("rejected") then Some(Rejected)
    else None
  }

  /** PUT /request/:id/status: 400 for an id that does not parse (checked first),
      400 for a status that is not a resolution, 404 for an unknown id, else 200
      with the resolved record. Whether the request was still pending is not checked. */
  method PutStatus(store: HrStore, id: Option<int>, status: Option<string>, comment: Option<string>,
                   now: string)
    returns (reply: Reply<VacationRequest>)
    modifies store`requests
    ensures store.users == old(store.users)
    ensures id.None? ==> reply == Fail(400, InvalidRequestId) && store.requests == old(store.requests)
    ensures id.Some? && ParseResolution(status).None? ==>
              reply == Fail(400, InvalidStatus) && store.requests == old(store.requests)
    ensures id.Some? && ParseResolution(status).Some? ==>
              match FindRequestIndex(old(store.requests), id.value)
              case None => reply == Fail(404, RequestNotFound) && store.requests == old(store.requests)
              case Some(i) =>
                reply == Ok(200, Resolve(old(store.requests)[i], ParseResolution(status).value, comment, now)) &&
                store.requests == old(store.requests)[i := reply.data]
  {
    if id.None? {
      return Fail(400, InvalidRequestId);
    }
    var resolution := ParseResolution(status);
    if resolution.None? {
      return Fail(400, InvalidStatus);
    }
    var updated := store.UpdateVacationRequestStatus(id.value, resolution.value, comment, now);
    if updated.None? {
      return Fail(404, RequestNotFound);
    }
    reply := Ok(200, updated.value);
  }
}
