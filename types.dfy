/** The record shapes of the HR portal and the role permission table. */
module Types {
  import opened Collections

  datatype Role = Employee | Manager

  datatype DocumentType = Passport | Contract | OtherDocument

  /** A document attached to a user; `url` is optional in the shared declaration. */
  datatype Document = Document(id: int, name: string, docType: DocumentType,
                               uploadedAt: string, url: Option<string>)

  datatype SocialLinks = SocialLinks(linkedin: Option<string>, telegram: Option<string>)

  datatype User = User(id: int, name: string, role: Role, team: string, email: string,
                       phone: string, salary: int, bonus: int, avatar: Option<string>,
                       social: SocialLinks, documents: seq<Document>)

  datatype Status = Pending | Approved | Rejected

  /** A vacation request as the backend stores it. The requester and manager names and
      the team are snapshots copied at creation. `kind` is the JSON field `type`: the
      handler stores whatever non-empty string the client sent, so it is kept as text. */
  datatype VacationRequest = VacationRequest(
    id: int, userId: int, userName: string, userTeam: string, kind: string,
    reason: string, startDate: string, endDate: string, status: Status,
    managerId: Option<int>, managerName: Option<string>,
    createdAt: string, updatedAt: string, managerComment: Option<string>)

  /** The seven capabilities of a role. */
  datatype Permissions = Permissions(
    viewOwnSalary: bool, viewOwnBonus: bool, viewTeamContacts: bool, viewOtherSalary: bool,
    viewOwnDocuments: bool, uploadDocuments: bool, viewTeamDocuments: bool)

  /** Names of the seven capabilities, so that a permission set can be compared as a set. */
  datatype Permission =
    ViewOwnSalary | ViewOwnBonus | ViewTeamContacts | ViewOtherSalary |
    ViewOwnDocuments | UploadDocuments | ViewTeamDocuments

  /** Whether `p` grants capability `k`. */
  function Grants(p: Permissions, k: Permission): bool
  {
    match k
    case ViewOwnSalary => p.viewOwnSalary
    case ViewOwnBonus => p.viewOwnBonus
    case ViewTeamContacts => p.viewTeamContacts
    case ViewOtherSalary => p.viewOtherSalary
    case ViewOwnDocuments => p.viewOwnDocuments
    case UploadDocuments => p.uploadDocuments
    case ViewTeamDocuments => p.viewTeamDocuments
  }

  /** `ROLE_PERMISSIONS`: only a manager may see another person's salary or the
      team's documents; everything else is granted to both roles. */
  function RolePermissions(role: Role): (p: Permissions)
    ensures p.viewOwnSalary && p.viewOwnBonus && p.viewOwnDocuments && p.uploadDocuments
    ensures p.viewTeamContacts
    ensures p.viewOtherSalary <==> role == Manager
    ensures p.viewTeamDocuments <==> role == Manager
  {
    match role
    case Employee => Permissions(true, true, true, false, true, true, false)
    case Manager => Permissions(true, true, true, true, true, true, true)
  }

  /** A manager holds every capability. */
  lemma ManagerHasAll(k: Permission)
    ensures Grants(RolePermissions(Manager), k)
  {
  }

  /** What an employee may do a manager may do too, and the two roles differ in
      exactly the two capabilities about other people's data. */
  lemma ManagerSupersetOfEmployee(k: Permission)
    ensures Grants(RolePermissions(Employee), k) ==> Grants(RolePermissions(Manager), k)
    ensures Grants(RolePermissions(Employee), k) != Grants(RolePermissions(Manager), k)
            <==> k == ViewOtherSalary || k == ViewTeamDocuments
  {
  }
}
