# HR portal backend: directory, vacation workflow and role permissions

This project models the backend of a small HR self-service portal. The backend keeps an in-memory roster of users and a list of vacation requests. It answers directory queries (by email, by id, by team, a team's manager, a manager's subordinates). It runs a vacation workflow: an employee files a request, the request is routed to the first manager of the employee's team, and a manager approves or rejects it. A constant table gives each of the two roles (`employee`, `manager`) seven permissions.

Layout, one module per source file:

- `collections.dfy` (`Collections`): `Option`, and `FirstIndex`, `Find` and `Filter` with the meaning of JavaScript's `findIndex`, `find` and `filter`.
- `text.dfy` (`Text`): JavaScript falsiness of an optional field, `endsWith`, and the decimal text of an integer in a template literal.
- `types.dfy` (`Types`): the records from `shared/types.ts` and `backend/src/data/mockData.ts`, and `ROLE_PERMISSIONS`.
- `http.dfy` (`Http`): a reply is a status code with either a payload or an error message.
- `mock_data.dfy` (`MockData`): the seed data, the lookups as functions, and the class `HrStore`. Its methods `CreateVacationRequest` (append) and `UpdateVacationRequestStatus` (overwrite in place) change the request list.
- `vacation_routes.dfy`, `user_routes.dfy`, `auth_routes.dfy`, `document_routes.dfy`: one function or method per handler. Each keeps the source's guards in the source's order. The two vacation handlers that change the store, `VacationRoutes.PostRequest` and `VacationRoutes.PutStatus`, are module-level methods that take an `HrStore` as a parameter. Each runs a pure guard function (`AdmitRequest`, `ParseResolution`) and then calls the store's method.
- `scenarios.dfy` (`Scenarios`): handler runs on the seed store.

Inputs the handlers get from outside are parameters:

- `parseInt` results are `Option<int>`; None stands for `NaN`.
- Request-body fields are `Option<int>` or `Option<string>`; None stands for an absent field.
- The clock is a parameter: `now` for ISO timestamps, `nowMs` for `Date.now()` in the login token.
- `Date.now()` used as a record id is a `freshId` parameter. The model does not assume it is unique.

Behaviour of the code that its declarations or comments do not suggest, which the model keeps as written:

- `updateVacationRequestStatus` (backend/src/data/mockData.ts:213-224) does not look at the request's current status. An approved or rejected request can be resolved again; `Scenarios.FileThenResolveTwice` shows an approved request being rejected afterwards.
- `VacationRequest.type` is declared as the union `'vacation' | 'sick' | 'personal' | 'other'` (backend/src/data/mockData.ts:32). The POST handler never checks it and stores whatever non-empty `type` it receives, so `VacationRequest.kind` is a string. Uploaded document types are strings for the same reason.
- The rating endpoint's `managerId` is always 2 (backend/src/routes/userRoutes.ts:59). The comment on that line says the backend team's manager is Денис, and the name does become "Денис" for non-frontend users. But Денис has id 4 (`UserRoutes.SeedRatingManagerMismatch`). The model keeps the constant 2.

## Model

| member | source | states |
|---|---|---|
| `Types.RolePermissions` | shared/types.ts:57-76 | Both roles may view their own salary, bonus and documents, view team contacts, and upload documents. `viewOtherSalary` and `viewTeamDocuments` hold exactly for `manager`. |
| `Types.ManagerHasAll` | shared/types.ts:67-75 | The manager row grants all seven permissions. |
| `Types.ManagerSupersetOfEmployee` | shared/types.ts:57-76 | Every permission an employee has, a manager has. The two rows differ exactly in `viewOtherSalary` and `viewTeamDocuments`. |
| `MockData.FindUserByEmail` | backend/src/data/mockData.ts:174-176 | Result is None exactly when no user's email equals the input (exact, case-sensitive). Otherwise it is the first roster user with that email. |
| `MockData.FindUserById` | backend/src/data/mockData.ts:178-180 | Result is None exactly when no user has that id. Otherwise it is the first roster user with that id. |
| `MockData.GetTeamMembers` | backend/src/data/mockData.ts:182-184 | A user is in the result iff it is in the roster with that team. Each such user occurs as often as in the roster; others occur 0 times. |
| `MockData.GetManagerByTeam` | backend/src/data/mockData.ts:186-188 | None exactly when no user is a manager of that team. Otherwise it is the first roster user with role manager and that team. |
| `MockData.GetVacationRequestsByUserId` | backend/src/data/mockData.ts:190-192 | Exactly the requests filed by that user, any status, with their multiplicities. |
| `MockData.GetPendingVacationRequestsForManager` | backend/src/data/mockData.ts:194-198 | Exactly the requests whose `managerId` is that id and whose status is pending, with their multiplicities. |
| `MockData.FindRequestIndex` | backend/src/data/mockData.ts:214-215 | None exactly when no request has that id. Otherwise it is the position of the first request with that id. |
| `MockData.Resolve` | backend/src/data/mockData.ts:217-221 | Sets status and `updatedAt`. Sets the comment only when it is non-empty, else keeps the old one. Restoring those three fields gives back the old record, so nothing else changes. |
| `MockData.HrStore.constructor` | backend/src/data/mockData.ts:44-172 | The store starts with the seed roster and seed requests. |
| `MockData.HrStore.CreateVacationRequest` | backend/src/data/mockData.ts:200-211 | One record is appended at the end and the earlier records are unchanged. It has every supplied field, id `freshId`, status pending, and `createdAt == updatedAt == now`. The roster does not change. |
| `MockData.HrStore.UpdateVacationRequestStatus` | backend/src/data/mockData.ts:213-224 | Returns None, with nothing changed, exactly when no record has the id. Otherwise only the first matching record is replaced by `Resolve` of it, and that record is returned. The prior status is not checked. |
| `MockData.FindUserByIdOfMember` | backend/src/data/mockData.ts:178-180 | With unique ids, looking up any roster user's id returns that user. |
| `MockData.FindUserByEmailOfMember` | backend/src/data/mockData.ts:174-176 | With unique emails, looking up any roster user's email returns that user. |
| `MockData.FindRequestIndexOfFresh` | backend/src/data/mockData.ts:200-215 | A record appended with an id no earlier record has is the record a lookup by that id finds. |
| `MockData.FindRequestIndexShadowed` | backend/src/data/mockData.ts:203-215 | A record appended with an id an earlier record already has is never the one a lookup finds; the earlier record is found instead. |
| `MockData.GetTeamMembersAppend` | backend/src/data/mockData.ts:182-184 | Team lists of two roster segments concatenate, so members come in roster order. |
| `MockData.CreateExtendsRequesterList` | backend/src/data/mockData.ts:190-211 | After an append, the requester's list gains the new record at its end. Every other user's list is unchanged. |
| `MockData.CreateExtendsPendingList` | backend/src/data/mockData.ts:194-211 | After a pending record is appended, its manager's pending list gains it at the end. No other manager's list changes. |
| `MockData.ResolveShrinksPendingLists` | backend/src/data/mockData.ts:194-224 | After a resolution, every pending list contains only records it contained before, and the resolved record is in none of them. |
| `MockData.ResolveKeepsRequesterListLength` | backend/src/data/mockData.ts:190-224 | A resolution keeps every requester's list at the same length. |
| `MockData.SeedUnique` | backend/src/data/mockData.ts:44-122 | The seed roster has unique ids and unique emails. |
| `MockData.SeedBackendManager` | backend/src/data/mockData.ts:106-121 | On the seed roster, the manager of team "backend" is Денис, id 4. |
| `MockData.SeedPendingForDenis` | backend/src/data/mockData.ts:141-171 | On the seed requests, the pending list of manager 4 is exactly request 3. |
| `MockData.SeedRequestIds` | backend/src/data/mockData.ts:125-172 | The seed requests have ids 1, 2 and 3 in order. |
| `MockData.SeedFindsAlexei` | backend/src/data/mockData.ts:91-105 | On the seed roster, id 3 is Алексей Сидоров. |
| `VacationRoutes.GetRequests` | backend/src/routes/vacationRoutes.ts:14-30 | 400 exactly when the id does not parse. Otherwise 200 with exactly the requests filed by that user. |
| `VacationRoutes.GetPending` | backend/src/routes/vacationRoutes.ts:42-58 | 400 exactly when the id does not parse. Otherwise 200 with exactly the pending requests routed to that manager. |
| `VacationRoutes.AdmitRequest` | backend/src/routes/vacationRoutes.ts:72-108 | Any falsy field gives 400 before any lookup. Otherwise 404 iff no user has the id. A known user whose team has no manager gives 400. An admitted draft copies the requester's name and team and the team manager's id and name. |
| `VacationRoutes.AdmittedDraft` | backend/src/routes/vacationRoutes.ts:81-108 | A complete body whose requester and team manager resolve is admitted with exactly their snapshot fields. |
| `VacationRoutes.PostRequest` | backend/src/routes/vacationRoutes.ts:70-113 | A refusal returns its code and leaves the store unchanged. An admission returns 201 with the record built from the draft, appended to the store. The roster never changes. |
| `VacationRoutes.ParseResolution` | backend/src/routes/vacationRoutes.ts:137-142 | Accepts exactly "approved" and "rejected", mapping each to its status. |
| `VacationRoutes.PutStatus` | backend/src/routes/vacationRoutes.ts:125-156 | An unparsable id gives 400, checked first. A status other than approved/rejected gives 400. An unknown id gives 404. All three leave the store unchanged. Otherwise 200, and only the first matching record is resolved. |
| `UserRoutes.ListUsers` | backend/src/routes/userRoutes.ts:7-9 | Returns the whole roster. |
| `UserRoutes.GetUser` | backend/src/routes/userRoutes.ts:12-21 | 404 exactly when the id does not parse or no user has it. Otherwise 200 with the `findUserById` user, a roster member with that id. |
| `UserRoutes.TeamMembers` | backend/src/routes/userRoutes.ts:24-28 | Returns `getTeamMembers(team)`: exactly the roster users of that team. |
| `UserRoutes.Subordinates` | backend/src/routes/userRoutes.ts:31-44 | 404 exactly when the id does not parse, is unknown, or names a non-manager. Otherwise 200 with exactly the employees of the manager's team, each as often as in the roster, never the manager. |
| `UserRoutes.Rating` | backend/src/routes/userRoutes.ts:47-69 | 404 exactly for an unknown or unparsable id. Otherwise `employeeId` is the id, rating is 4 and manager id is 2. Manager name is "Далер Алямов" iff the team is "frontend", else "Денис". The characteristic names the team. |
| `UserRoutes.SeedRatingManagerMismatch` | backend/src/routes/userRoutes.ts:59-60 | For the seed backend employee, the rating names Денис but carries id 2, which belongs to Далер Алямов. |
| `AuthRoutes.Login` | backend/src/routes/authRoutes.ts:7-44 | An absent or empty email gives 400. A non-`@zinda.ai` email gives 400, whatever the roster. A corporate email gives 401 iff no user has exactly that email. Otherwise 200 with the `findUserByEmail` user and token `mock_token_<id>_<nowMs>`. |
| `AuthRoutes.LoginFindsMember` | backend/src/routes/authRoutes.ts:19-43 | With unique emails, every roster user with a corporate email logs in as exactly that user. |
| `AuthRoutes.MockTokenDeterminesId` | backend/src/routes/authRoutes.ts:36 | Two tokens issued at the same time are equal only for the same user id. |
| `DocumentRoutes.GetDocuments` | backend/src/routes/documentRoutes.ts:7-30 | 400 for an unparsable id. 404 iff no user has the id. Otherwise 200 with that user's `documents` list unchanged. |
| `DocumentRoutes.PostDocument` | backend/src/routes/documentRoutes.ts:42-74 | 400 for an unparsable id, then 400 when `name` or `type` is missing. Otherwise 201 with name and type copied and `url == "/uploads/" + id + "/" + name`. The roster is not an argument, so the user's existence is not checked and nobody's documents change. |
| `DocumentRoutes.UploadUrlDeterminesUser` | backend/src/routes/documentRoutes.ts:68 | The upload URL determines the user id it was posted for. |
| `Text.NatToStringRoundTrip` | backend/src/routes/authRoutes.ts:36 | Reading back the digits of a rendered number gives the number. |
| `Text.IntToStringInjective` | backend/src/routes/documentRoutes.ts:68 | Different integers render to different text, so ids in tokens and URLs are not confused. |
| `Scenarios.FileForAlexei` | backend/src/routes/vacationRoutes.ts:70-113 | On a roster where id 3 and the backend manager resolve as in the seed, the request is created pending. It is routed to manager 4 "Денис" with team "backend", and it is appended to the store. |
| `Scenarios.ResolveLast` | backend/src/routes/vacationRoutes.ts:125-156 | Resolving the last request when no earlier request shares its id gives 200. It changes exactly that request. |
| `Scenarios.ApproveThenReject` | backend/src/data/mockData.ts:213-224 | Approving with comment "ОК" and then rejecting with no comment both succeed. The second keeps the comment. |
| `Scenarios.FileThenResolveTwice` | backend/src/data/mockData.ts:200-224 | On the seed store a new backend request is routed to Денис. It is approved, then rejected again: a resolved request can be re-resolved. |

## Left out

- Express routing, the `{ success, data, error }` envelope, `try`/`catch` 500 replies and `console.error` logging: a reply is a status code plus payload or message.
- `parseInt` itself: handlers receive its result as `Option<int>`, so prefixes such as `"12abc"` parsing to 12 are not modelled.
- Body values of unexpected JSON types are not modelled. Fields are absent, an integer or a string. Two cases this leaves out: a string `userId`, which the strict `===` lookup would never match, and a non-string email, on which `endsWith` throws (a 500).
- JavaScript numbers are doubles. Ids, salaries and clock readings are unbounded integers.
- MockData.HrStore.CreateVacationRequest: the source reads the clock twice for `createdAt` and `updatedAt`. The model uses one `now`, so it states `createdAt == updatedAt`. The source has this only when both reads fall in the same millisecond.
- MockData.HrStore.UpdateVacationRequestStatus: the source returns the very object held in the list, so later changes to it are visible through the reply. The model returns a value equal to the stored record at that moment.
- Record ids from `Date.now()` are the `freshId` parameter, and their uniqueness is not assumed. `FindRequestIndexShadowed` shows what a collision does.
- The frontend (React pages and components, `localStorage`, `fetch`, file pickers, avatar preview, rating characteristic generation) is not part of this model. Field visibility is decided there, and the backend does not enforce it. Backend enforcement of salary or document visibility, a check that the resolver is the assigned manager, an illegal-transition check and date-range validation are absent from the source, so the model claims none of them.
