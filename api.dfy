/** The server endpoints the modelled screens call, as values. A handler
    returns the calls it issued, in order, so that "no server call" and "this
    call came before that one" can be stated. The replies come back to the
    handlers as `Common.Reply` inputs. */
module Api {
  import opened Common

  /** A query-string value. */
  datatype ParamValue = IntParam(i: int) | StrParam(s: string) | BoolParam(b: bool)

  /** The `params` object of a list request. */
  type Params = map<string, ParamValue>

  /** `TokenResponse` of the two login endpoints. */
  datatype TokenResponse = TokenResponse(accessToken: string, userId: int, isAdmin: bool)

  /** `PartnerCompanyResponse`: a partner company of the user's company. */
  datatype Partner = Partner(companyId: int, companyName: string, activityType: string)

  /** An entry of a `SelectDropdown`: the value it stands for and its label. */
  datatype Choice = Choice(value: int, caption: string)

  /** A partner as a dropdown entry: its company id under its name. */
  function ChoiceOf(p: Partner): Choice { Choice(p.companyId, p.companyName) }

  /** `EmployeeMember`, as far as the screens read it. */
  datatype Member = Member(id: int, fullName: string, role: Option<string>, isBlocked: bool)

  /** `EmployeeCompany`: a company's name and members. */
  datatype EmployeeCompany = EmployeeCompany(name: string, members: seq<Member>)

  /** `EmployeesResponse`: the own company and the partner companies. */
  datatype Employees = Employees(myCompany: Option<EmployeeCompany>, partnerCompanies: seq<EmployeeCompany>)

  /** `data?.my_company?.members || []`. */
  function MyMembers(e: Employees): (r: seq<Member>)
    ensures e.myCompany.Some? ==> r == e.myCompany.value.members
    ensures e.myCompany.None? ==> r == []
  {
    if e.myCompany.Some? then e.myCompany.value.members else []
  }

  /** The members as dropdown entries, in order: id under full name. */
  function MemberChoices(ms: seq<Member>): (r: seq<Choice>)
    ensures |r| == |ms|
    ensures forall i :: 0 <= i < |ms| ==> r[i] == Choice(ms[i].id, ms[i].fullName)
  {
    if ms == [] then [] else [Choice(ms[0].id, ms[0].fullName)] + MemberChoices(ms[1..])
  }

  /** `DeclarationVehicle`: transport type and number. */
  datatype Vehicle = Vehicle(kind: string, number: string)

  datatype Call =
    // authentication and company setup
    | Login(email: string, password: string)
    | AdminLogin(login: string, password: string, code: string)
    | GetMe
    | GetCompanyStatus
    | Register(fullName: string, email: string, phone: string, activityType: string, password: string)
    | LookupCompany(inn: string)
    | CreateCompany(name: string, inn: string)
    | JoinCompany(inn: string)
    // notifications
    | ListNotifications(limit: int)
    | MarkAllNotificationsRead
    | MarkNotificationRead(id: int)
    | DeleteNotification(id: int)
    | ClearNotifications
    | ToggleSound(enabled: bool)
    | GetSoundStatus
    // settings
    | UpdateProfile(fullName: string, phone: string)
    | GetProfile
    | RequestPasswordChange(oldPassword: string, newPassword: string)
    | ConfirmPasswordChange(code: string)
    | RequestEmailChange(newEmail: string)
    | ConfirmEmailChange(code: string)
    | UploadAvatar(avatar: string)
    | DeleteAvatar
    // partnerships
    | LookupPartner(inn: string)
    | SendPartnershipRequest(inn: string, note: Option<string>)
    | ListPartners
    | DeletePartnership(partnershipId: int)
    // list screens
    | ListFolders(params: Params)
    | ListFiles(params: Params)
    | ListDeclarations(params: Params)
    | ListRequests(params: Params)
    // documents
    | CreateFolder(name: string, accessType: string, parentFolderId: Option<int>, grantedUserIds: seq<int>)
    | UploadDocument(file: string, folderId: Option<int>, clientId: Option<int>)
    | UploadDocuments(files: seq<string>, folderId: Option<int>, clientId: Option<int>)
    | DeleteDocument(documentId: int)
    | DeleteFolder(deletedFolderId: int)
    // declarations
    | CreateDeclaration(postNumber: string, sendDate: string, declarationNumber: string,
                        declarationClientId: int, regime: string, vehicles: seq<Vehicle>, note: Option<string>)
    // certificates and tasks
    | CreateCertificate(certifierCompanyId: Option<int>, isSelf: bool, certificateType: string, deadline: string,
                        certificateNumber: Option<string>, isNumberByCertifier: bool, certificateClientId: int,
                        note: Option<string>)
    | CreateTask(targetCompanyId: int, targetUserId: int, title: string, note: Option<string>,
                 priority: string, status: string, deadline: string)
    // employees
    | ListEmployees
    | BlockEmployee(userId: int)
    | UnblockEmployee(userId: int)
    | RemoveEmployee(userId: int, transferToUserId: int)
    // requests
    | HandleRequest(requestId: int, action: string)
}
