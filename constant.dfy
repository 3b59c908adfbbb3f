/** The engine's fixed vocabulary: account status codes, workflow signals, account types,
    error types, the role configuration, the account-name and e-mail patterns and the
    support-case subject. */
module Constant {
  import opened Strings

  // ---- AccountStatus ----

  const INVITED := 1    // left the old organization, ready to accept an invitation
  const JOINED := 2     // joined the new organization
  const UPDATED := 3    // moved to the default organizational unit
  const MONITORED := 4  // registered
  const LEFT := 5       // left the old organization, to be closed
  const SUSPENDED := 6  // closed or suspended

  /** The status of a freshly loaded account (it has not left its organization yet). */
  const INITIAL_STATUS := 0

  /** The migrate codes come first and in order, the decommission codes after them. */
  lemma StatusCodesIncrease()
    ensures INITIAL_STATUS < INVITED < JOINED < UPDATED < MONITORED < LEFT < SUSPENDED
  {
  }

  // ---- StateMachineStates ----

  /** The values a step writes into the workflow's `Status`; `JoinCheck` is the stray
      "JoinCH" that leave-organization returns when an account already joined. */
  datatype Signal = Completed | ConcurrencyWait | LinkedAccountFlow | StandaloneAccountFlow | Wait | JoinCheck

  function SignalName(s: Signal): (r: string)
    ensures |r| > 0
  {
    match s
    case Completed => "Completed"
    case ConcurrencyWait => "ConcurrencyWait"
    case LinkedAccountFlow => "LinkedAccountFlow"
    case StandaloneAccountFlow => "StandaloneAccountFlow"
    case Wait => "Wait"
    case JoinCheck => "JoinCH"
  }

  /** Distinct signals are distinct strings, so the workflow's choice states can tell
      them apart. */
  lemma SignalNamesDistinct(a: Signal, b: Signal)
    ensures a != b ==> SignalName(a) != SignalName(b)
  {
    var la, lb := |SignalName(a)|, |SignalName(b)|;
    assert a != b ==> la != lb;
  }

  // ---- AccountType, OrgParentType ----

  /** `AccountType`; `OtherType` stands for any value the table holds that is none of the
      three codes, for which no branch of a step applies. */
  datatype AccountType = Linked | Master | Standalone | OtherType

  datatype ParentType = Root | OrganizationalUnit

  function ParentTypeName(t: ParentType): string {
    match t
    case Root => "ROOT"
    case OrganizationalUnit => "ORGANIZATIONAL_UNIT"
  }

  // ---- String constants ----

  const TRUE := "TRUE"
  const AWS_MASTER_ROLE := "MasterRole"
  const NOTIFICATION_TITLE := "Migration Engine"
  const AUTHOR_NAME := "Migration Engine"

  // Error types
  const AIE := "Account Integrity Error"
  const CATE := "Check Account Type Error"
  const COUE := "Change OU Error"
  const CRLE := "Create master role in Linked account  Error"
  const CRME := "Create master role in Master account error"
  const CUE := "Cleanup Error"
  const NHE := "Notification Handler Error"
  const JOE := "Join Organization Error"
  const LDE := "Load Data Error"
  const LOE := "Leave Organization Error"
  const OLPE := "Org Level Resource Permission Scan Error"

  // ---- ROLE_CONFIG ----

  /** A role's permissions: the ARN of a managed policy, or an inline policy document. */
  datatype Policy = Arn(arn: string) | Document(statements: seq<string>)

  /** A role to create: its trust policy lets `trustedAccount` assume it. */
  datatype RoleSpec = RoleSpec(trustedAccount: string, policy: Policy)

  function RoleConfig(masterAccountId: string): (m: map<string, RoleSpec>)
    ensures m.Keys == {"MasterRole", "MasterReadOnlyRole"}
    ensures forall name | name in m :: m[name].trustedAccount == masterAccountId
  {
    map[
      "MasterRole" := RoleSpec(masterAccountId, Arn("arn:aws:iam::aws:policy/AdministratorAccess")),
      "MasterReadOnlyRole" := RoleSpec(masterAccountId, Arn("arn:aws:iam::aws:policy/ReadOnlyAccess"))
    ]
  }

  /** Both configured policies are ARNs, so role creation always attaches a managed
      policy and never puts an inline one. */
  lemma RolePoliciesAreArns(masterAccountId: string, name: string)
    requires name in RoleConfig(masterAccountId)
    ensures RoleConfig(masterAccountId)[name].policy.Arn?
    ensures "arn:aws:iam::aws:policy/" <= RoleConfig(masterAccountId)[name].policy.arn
  {
  }

  /** Python's ordering of strings (by code point, a proper prefix first). */
  predicate StrLess(a: string, b: string) {
    exists i | 0 <= i <= |a| && i <= |b| ::
      a[..i] == b[..i] && (if i == |a| then i < |b| else i < |b| && a[i] < b[i])
  }

  predicate StrictlySorted(s: seq<string>) {
    forall i, j | 0 <= i < j < |s| :: StrLess(s[i], s[j])
  }

  /** `sorted(ROLE_CONFIG.keys())`. */
  function RoleNames(): (r: seq<string>)
    ensures StrictlySorted(r)
    ensures |r| == 2
    ensures forall masterAccountId: string :: {r[0], r[1]} == RoleConfig(masterAccountId).Keys
  {
    var r := ["MasterReadOnlyRole", "MasterRole"];
    assert r[0][..7] == r[1][..7] && r[0][7] < r[1][7];
    assert StrLess(r[0], r[1]);
    r
  }

  // ---- Patterns ----

  /** `pre + mid + c + tail` for some whitespace-free non-empty `pre` and a character `c`
      other than a newline: the body of the patterns `^\S+@AWS.com$` (with mid "@AWS" and
      tail "com"), `^\S+.xls$` and `^\S+.json$` (with an empty mid). */
  predicate BodyMatches(b: string, mid: string, tail: string) {
    var n := |b| - |mid| - 1 - |tail|;
    n >= 1 && NoSpace(b[..n]) && b[n..n + |mid|] == mid && b[n + |mid|] != '\n'
    && b[n + |mid| + 1..] == tail
  }

  /** `re.search("^\S+" + mid + "." + tail + "$", s)`: `$` also matches before a final
      newline. */
  predicate AnchoredMatch(s: string, mid: string, tail: string) {
    BodyMatches(s, mid, tail) || (|s| > 0 && s[|s| - 1] == '\n' && BodyMatches(s[..|s| - 1], mid, tail))
  }

  /** The same set of strings, described by how it is built. */
  ghost predicate AnchoredMatchRef(s: string, mid: string, tail: string) {
    exists pre: string, c: char, nl: string ::
      |pre| >= 1 && NoSpace(pre) && c != '\n' && (nl == "" || nl == "\n")
      && s == pre + mid + [c] + tail + nl
  }

  lemma BodyMatchesRef(b: string, mid: string, tail: string, pre: string, c: char)
    requires |pre| >= 1 && NoSpace(pre) && c != '\n' && b == pre + mid + [c] + tail
    ensures BodyMatches(b, mid, tail)
  {
    var n := |b| - |mid| - 1 - |tail|;
    assert n == |pre|;
    assert b[..n] == pre;
    assert b[n..n + |mid|] == mid;
    assert b[n + |mid|] == c;
    assert b[n + |mid| + 1..] == tail;
  }

  lemma BodyMatchesDecompose(b: string, mid: string, tail: string)
    requires BodyMatches(b, mid, tail)
    ensures var n := |b| - |mid| - 1 - |tail|;
      b == b[..n] + mid + [b[n + |mid|]] + tail
  {
    var n := |b| - |mid| - 1 - |tail|;
    assert b == b[..n] + b[n..n + |mid|] + [b[n + |mid|]] + b[n + |mid| + 1..];
  }

  lemma MatchToRef(s: string, mid: string, tail: string)
    requires AnchoredMatch(s, mid, tail)
    ensures AnchoredMatchRef(s, mid, tail)
  {
    var b, nl := s, "";
    if !BodyMatches(s, mid, tail) {
      b, nl := s[..|s| - 1], "\n";
      assert s == b + nl;
    }
    BodyMatchesDecompose(b, mid, tail);
    var n := |b| - |mid| - 1 - |tail|;
    var pre, c := b[..n], b[n + |mid|];
    assert s == pre + mid + [c] + tail + nl;
  }

  lemma RefToMatch(s: string, mid: string, tail: string, pre: string, c: char, nl: string)
    requires |pre| >= 1 && NoSpace(pre) && c != '\n' && (nl == "" || nl == "\n")
    requires s == pre + mid + [c] + tail + nl
    ensures AnchoredMatch(s, mid, tail)
  {
    var b := pre + mid + [c] + tail;
    BodyMatchesRef(b, mid, tail, pre, c);
    if nl == "\n" {
      assert s[..|s| - 1] == b;
    } else {
      assert s == b;
    }
  }

  /** The hand-written matcher accepts exactly the strings the pattern describes. */
  lemma AnchoredMatchIff(s: string, mid: string, tail: string)
    ensures AnchoredMatch(s, mid, tail) <==> AnchoredMatchRef(s, mid, tail)
  {
    if AnchoredMatch(s, mid, tail) {
      MatchToRef(s, mid, tail);
    }
    if AnchoredMatchRef(s, mid, tail) {
      var pre: string, c: char, nl: string :|
        |pre| >= 1 && NoSpace(pre) && c != '\n' && (nl == "" || nl == "\n")
        && s == pre + mid + [c] + tail + nl;
      RefToMatch(s, mid, tail, pre, c, nl);
    }
  }

  /** `re.search(EMAIL_PATTERN, email)` with `EMAIL_PATTERN = ^\S+@AWS.com$`. */
  predicate EmailMatches(email: string) {
    AnchoredMatch(email, "@AWS", "com")
  }

  lemma EmailExamples()
    ensures EmailMatches("team+acme@AWS.com")
    ensures EmailMatches("a@b@AWSxcom")
    ensures !EmailMatches("@AWS.com")
    ensures !EmailMatches("team acme@AWS.com")
    ensures !EmailMatches("team@aws.com")
  {
    BodyMatchesRef("team+acme@AWS.com", "@AWS", "com", "team+acme", '.');
    BodyMatchesRef("a@b@AWSxcom", "@AWS", "com", "a@b", 'x');
    assert "team acme@AWS.com"[..9] == "team acme" && IsSpace("team acme"[4]);
    assert "team@aws.com"[4..8] == "@aws";
  }

  /** `re.search(ACCOUNT_NAME_PATTERN, name)` with
      `ACCOUNT_NAME_PATTERN = ^([a-z]{2})(\d{7})\s{1}\w+\s{1}\w+$`. */
  predicate NameMatches(name: string) {
    NameBodyMatches(name) || (|name| > 0 && name[|name| - 1] == '\n' && NameBodyMatches(name[..|name| - 1]))
  }

  /** Two lower-case letters, seven digits, one whitespace character, a word, one
      whitespace character, a word. */
  predicate NameBodyMatches(b: string) {
    |b| >= 13 && IsLowerLetter(b[0]) && IsLowerLetter(b[1])
    && (forall i | 2 <= i < 9 :: IsDigit(b[i])) && IsSpace(b[9])
    && exists j | 11 <= j < |b| - 1 :: IsSpace(b[j]) && AllWordChars(b[10..j]) && AllWordChars(b[j + 1..])
  }

  /** The two words are separated by exactly one whitespace character, so the name has
      exactly two whitespace characters (besides a final newline). */
  lemma {:induction false} NameHasTwoSpaces(b: string)
    requires NameBodyMatches(b)
    ensures |set i | 0 <= i < |b| && IsSpace(b[i])| == 2
  {
    var j :| 11 <= j < |b| - 1 && IsSpace(b[j]) && AllWordChars(b[10..j]) && AllWordChars(b[j + 1..]);
    forall i | 0 <= i < |b| && i != 9 && i != j ensures !IsSpace(b[i]) {
      if 10 <= i < j {
        assert b[10..j][i - 10] == b[i];
      } else if i > j {
        assert b[j + 1..][i - j - 1] == b[i];
      }
    }
    assert (set i | 0 <= i < |b| && IsSpace(b[i])) == {9, j};
  }

  lemma NameAccepted()
    ensures NameMatches("ab1234567 acme prod")
  {
    var s := "ab1234567 acme prod";
    assert IsSpace(s[14]) && AllWordChars(s[10..14]) && AllWordChars(s[15..]);
  }

  /** Any whitespace character separates, and a final newline is ignored. */
  lemma NameWithTabAndNewlineAccepted()
    ensures NameMatches("ab1234567\tacme prod\n")
  {
    var t := "ab1234567\tacme prod\n";
    var b := t[..|t| - 1];
    assert IsSpace(b[14]) && AllWordChars(b[10..14]) && AllWordChars(b[15..]);
  }

  /** Two whitespace characters in a row after the digits never match: each of the
      two words needs at least one word character. */
  lemma AdjacentSpacesRejected(b: string, k: nat)
    requires 10 <= k && k + 1 < |b| && IsSpace(b[k]) && IsSpace(b[k + 1])
    ensures !NameBodyMatches(b)
  {
    forall j | 11 <= j < |b| - 1
      ensures !(IsSpace(b[j]) && AllWordChars(b[10..j]) && AllWordChars(b[j + 1..]))
    {
      if j < k {
        assert b[j + 1..][k - j - 1] == b[k];
      } else if j == k {
        assert b[j + 1..][0] == b[k + 1];
      } else {
        assert b[10..j][k - 10] == b[k];
      }
    }
  }

  lemma NameWithDoubleSpaceRejected()
    ensures !NameMatches("ab1234567 acme  prod")
  {
    var u := "ab1234567 acme  prod";
    assert u[14] == ' ' && u[15] == ' ';
    AdjacentSpacesRejected(u, 14);
  }

  // ---- Support case ----

  /** `get_support_case_subject(account_id)`: the subject names the account. */
  function SupportCaseSubject(accountId: string): (r: string)
    ensures Contains(r, accountId)
  {
    var pre := "Please update this payer account i.e. ";
    var r := pre + accountId + " and all linked accounts payment method";
    assert OccursAt(r, accountId, |pre|);
    r
  }
}
