/** The records, messages, AWS responses and exceptions that the migration steps share. */
module Base {
  import opened Documents
  import opened Constant
  import Strings

  /** The table's primary key: (CompanyName, AccountId). */
  type Key = (string, string)

  /** One item of the target-account table. Optional columns are `None` when the item
      does not hold them (or holds null). */
  datatype Record = Record(
    companyName: string,
    accountId: string,
    accountType: AccountType,
    adminRole: string,
    migrate: bool,
    accountStatus: int,
    email: Option<string>,
    name: Option<string>,
    slackHandle: Option<string>,
    handshakeId: Option<string>,
    error: Option<string>,
    orgLevelPermissions: Option<seq<string>>,
    isPermissionsScanned: Option<bool>,
    supportCaseId: Option<string>,
    supportCaseDisplayId: Option<string>,
    supportCaseStatus: Option<string>,
    tags: Option<Value>,
    lastUpdatedOn: Option<int>)

  function KeyOf(r: Record): Key { (r.companyName, r.accountId) }

  /** `r` is `acc` with at most its status columns changed: same key, type and migration flag. */
  predicate SameIdentity(r: Record, acc: Record) {
    KeyOf(r) == KeyOf(acc) && r.accountType == acc.accountType && r.migrate == acc.migrate
  }

  /** The exceptions a step can raise or catch. `ClientErr` is botocore's ClientError;
      `Failure` is any other exception (a plain `Exception(msg)` or an SDK error that is
      not a ClientError); `Timeout` is the Lambda being stopped inside an endless loop. */
  datatype Exc =
    | ClientErr(code: string, message: string)
    | Failure(msg: string)
    | IndexErr
    | KeyErr(key: string)
    | ValueErr(msg: string)
    | AttrErr(msg: string)
    | TypeErr(msg: string)
    | Timeout

  /** The messages Python gives the exceptions of an access to `None`. */
  const NONE_NOT_SUBSCRIPTABLE := "'NoneType' object is not subscriptable"
  const NONE_HAS_NO_GET := "'NoneType' object has no attribute 'get'"
  const NONE_HAS_NO_LOWER := "'NoneType' object has no attribute 'lower'"

  /** The response of one AWS call. */
  datatype Aws<T> = Ok(value: T) | ClientError(code: string, message: string) | OtherError(msg: string)

  function Raise<T>(a: Aws<T>): (e: Exc)
    requires !a.Ok?
    ensures e.ClientErr? <==> a.ClientError?
  {
    if a.ClientError? then ClientErr(a.code, a.message) else Failure(a.msg)
  }

  /** How a step ends: with a value, or with an exception that reaches the workflow. */
  datatype StepResult<T> = Returned(value: T) | Raised(exc: Exc)

  /** The message `log_error` publishes, as the notification workflow passes it on:
      `handler`, `status` and `actionItem` are the keys added along the way. */
  datatype Notice = Notice(
    title: string,
    accountId: Option<string>,
    companyName: Option<string>,
    errorType: string,
    message: string,
    errorCode: Option<string>,
    errorMessage: Option<string>,
    slackHandle: Option<string>,
    handler: Option<string>,
    status: Option<string>,
    actionItem: Option<string>)

  /** A ready-made Slack attachment published with a `SlackMessage` key. */
  datatype SlackMessage = SlackMessage(color: string, author: string, title: string, text: string)

  /** What a step publishes: an error notice or a ready-made Slack message on the
      notification topic, or a message on the Slack topic (from the notifier). */
  datatype Publication =
    | ErrorNotice(notice: Notice)
    | UserNotice(slackHandle: Option<string>, message: SlackMessage)
    | SlackPost(message: SlackMessage, webhookUrl: Option<string>)

  /** The AWS operations the steps call. */
  datatype Operation =
    | StsAssumeRole
    | OrgDescribeAccount | OrgRemoveAccount | OrgListAccounts | OrgDeleteOrganization
    | OrgDescribeOrganization | OrgListHandshakes | OrgInviteAccount | OrgAcceptHandshake
    | OrgListParents | OrgMoveAccount
    | IamGetRole | IamCreateRole | IamAttachRolePolicy | IamPutRolePolicy | IamWaitRoleExists
    | CeGetCostAndUsage
    | AnalyzerListAnalyzers | AnalyzerListFindings
    | SupportDescribeCases | SupportCreateCase
    | S3GetObject | S3HeadObject | S3PutObject

  /** One AWS call a step makes: the operation and its arguments, in a fixed order. */
  datatype Request = Request(op: Operation, args: seq<Value>)

  function OptStr(o: Option<string>): Value {
    if o.Some? then Str(o.value) else Null
  }

  function AssumeRole(accountId: string, role: string, viaAccount: Option<string>): Request {
    Request(StsAssumeRole, [Str(accountId), Str(role), OptStr(viaAccount)])
  }
  function DescribeAccount(accountId: string): Request { Request(OrgDescribeAccount, [Str(accountId)]) }
  function RemoveAccount(accountId: string): Request { Request(OrgRemoveAccount, [Str(accountId)]) }
  function ListAccounts(inAccount: string): Request { Request(OrgListAccounts, [Str(inAccount)]) }
  function DeleteOrganization(inAccount: string): Request { Request(OrgDeleteOrganization, [Str(inAccount)]) }
  function DescribeOrganization(viaAccount: Option<string>): Request {
    Request(OrgDescribeOrganization, [OptStr(viaAccount)])
  }
  function ListHandshakes(): Request { Request(OrgListHandshakes, []) }
  function InviteAccount(accountId: string): Request { Request(OrgInviteAccount, [Str(accountId)]) }
  function AcceptHandshake(inAccount: string, handshakeId: Option<string>): Request {
    Request(OrgAcceptHandshake, [Str(inAccount), OptStr(handshakeId)])
  }
  function GetRole(inAccount: string, role: string): Request { Request(IamGetRole, [Str(inAccount), Str(role)]) }
  function CreateRole(inAccount: string, role: string, trustedAccount: string): Request {
    Request(IamCreateRole, [Str(inAccount), Str(role), Str(trustedAccount)])
  }
  function AttachRolePolicy(inAccount: string, role: string, arn: string): Request {
    Request(IamAttachRolePolicy, [Str(inAccount), Str(role), Str(arn)])
  }
  function PutRolePolicy(inAccount: string, role: string): Request {
    Request(IamPutRolePolicy, [Str(inAccount), Str(role)])
  }
  function WaitRoleExists(inAccount: string, role: string): Request {
    Request(IamWaitRoleExists, [Str(inAccount), Str(role)])
  }
  function ListParents(accountId: string): Request { Request(OrgListParents, [Str(accountId)]) }
  function MoveAccount(accountId: string, source: Option<string>, destination: Option<string>): Request {
    Request(OrgMoveAccount, [Str(accountId), OptStr(source), OptStr(destination)])
  }
  function GetCostAndUsage(inAccount: string, start: int, end: int): Request {
    Request(CeGetCostAndUsage, [Str(inAccount), Int(start), Int(end)])
  }
  function ListAnalyzers(inAccount: string, region: string): Request {
    Request(AnalyzerListAnalyzers, [Str(inAccount), Str(region)])
  }
  function ListFindings(inAccount: string, region: string, analyzerArn: string, condition: string, orgId: string): Request {
    Request(AnalyzerListFindings, [Str(inAccount), Str(region), Str(analyzerArn), Str(condition), Str(orgId)])
  }
  function DescribeCase(caseId: string): Request { Request(SupportDescribeCases, [Str(caseId)]) }
  function CreateCase(subject: string, ccEmails: Option<seq<string>>): Request {
    Request(SupportCreateCase, [Str(subject)] + if ccEmails.Some? then [List(seq(|ccEmails.value|, i requires 0 <= i < |ccEmails.value| => Str(ccEmails.value[i])))] else [Null])
  }
  function GetObject(bucket: string, key: string): Request { Request(S3GetObject, [Str(bucket), Str(key)]) }
  function HeadObject(bucket: string, key: string): Request { Request(S3HeadObject, [Str(bucket), Str(key)]) }
  function PutObject(bucket: string, key: string, body: map<string, Value>): Request {
    Request(S3PutObject, [Str(bucket), Str(key), Dict(body)])
  }

  /** The Lambda configuration read from the environment. */
  datatype Config = Config(
    masterAccountId: string,
    emailValidation: Option<string>,
    nameValidation: Option<string>,
    createSupportCase: Option<string>,
    defaultOuId: Option<string>,
    caseCcEmails: Option<seq<string>>,
    sharedBucket: string)

  /** The account a step works on, as the workflow passes it. */
  datatype StepInput = StepInput(companyName: string, accountId: string)

  /** The input of a company-wide step: the company, and an account id when the workflow
      passes one. */
  datatype CompanyEvent = CompanyEvent(companyName: string, accountId: Option<string>)

  /** The `Data` envelope the role steps return: the signal, the account the step worked
      on and the name of the workflow run to start for it. */
  datatype FlowData = FlowData(status: Signal, companyName: string, accountId: Option<string>, processName: string)

  /** `{"Status": status, "CompanyName": company_name}`, the answer of the company-wide
      watcher steps. */
  datatype CompanyStatus = CompanyStatus(status: Signal, companyName: string)

  /** `f"{x}"` for an optional id: `None` prints as "None". */
  function IdText(id: Option<string>): string {
    if id.Some? then id.value else "None"
  }

  /** A workflow input, either bare or wrapped in a `Data` key. */
  datatype Event = Bare(input: StepInput) | InData(data: StepInput)

  /** `event.get("Data") or event`. */
  function Unwrap(e: Event): StepInput {
    match e
    case Bare(i) => i
    case InData(d) => d
  }

  /** `f"{company}-{account}-{time.monotonic_ns()}"`. */
  function ProcessName(company: string, account: string, ns: nat): (r: string)
    ensures company + "-" + account + "-" <= r
  {
    company + "-" + account + "-" + Strings.NatToString(ns)
  }
}
