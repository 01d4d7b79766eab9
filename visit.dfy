/** The visit record and the small value types around it (src/App.jsx:12-15 and the
    fields that the operations of src/App.jsx add to a record).

    A JavaScript field that may be `undefined` is an `Option` when its presence matters
    (the credential fields, the evidence bundle, the judicial check); a string field that
    the code only tests for truthiness or compares for equality is a plain `string`, with
    `""` standing for "absent". */
module VisitModel {

  datatype Option<T> = None | Some(value: T)

  datatype Status = Pending | Approved | Rejected | CheckedIn | CheckedOut

  /** The status string the source stores and prints. */
  function StatusName(s: Status): string {
    match s
    case Pending => "pending"
    case Approved => "approved"
    case Rejected => "rejected"
    case CheckedIn => "checked-in"
    case CheckedOut => "checked-out"
  }

  /** `usesRemaining`: absent until credentials are issued (walk-ins never get one), a
      number once issued, and NaN after `undefined - 1`. */
  datatype Uses = Missing | Count(n: int) | NotANumber

  /** `(u ?? dflt) > 0`: the nullish default applies only to an absent counter; NaN
      compares false. */
  predicate UsesAbove0(u: Uses, dflt: int) {
    match u
    case Missing => dflt > 0
    case Count(n) => n > 0
    case NotANumber => false
  }

  /** The evidence bundle `{ docPhoto, assetPhoto, signature }`; images are opaque data URLs. */
  datatype Evidence = Evidence(docPhoto: Option<string>, assetPhoto: Option<string>, signature: Option<string>)

  const NoEvidence: Evidence := Evidence(None, None, None)

  datatype JudicialCheck = JudicialCheck(result: string, observation: string, at: int)

  datatype Visit = Visit(
    id: string,
    // visitor and scheduling attributes
    visitorName: string,
    company: string,
    email: string,
    cedula: string,
    phone: string,
    residenceType: string,
    passport: string,
    visitType: string,
    motive: string,
    hostId: string,
    hostName: string,
    date: string,
    time: string,
    assetBrand: string,
    assetSerial: string,
    hasAssets: bool,
    status: Status,
    // credential fields
    qrCode: Option<string>,
    validationCode: Option<string>,
    validationExpiresAt: Option<int>,
    usesRemaining: Uses,
    // presence and exit control
    checkIn: Option<int>,
    checkOut: Option<int>,
    evidence: Option<Evidence>,
    exitPermission: bool,
    assetValidationTime: Option<int>,
    guardianName: Option<string>,
    judicialCheck: Option<JudicialCheck>,
    // fields the report action looks for; no operation writes them
    docImage: Option<string>,
    signatureData: Option<string>)

  /** A record holding only identity, visitor and scheduling data: every later field absent. */
  function BareVisit(id: string, visitorName: string, company: string, visitType: string,
                     hostId: string, hostName: string, status: Status, date: string, time: string,
                     cedula: string, assetBrand: string, assetSerial: string, hasAssets: bool): Visit
  {
    Visit(id, visitorName, company, "", cedula, "", "", "", visitType, "", hostId, hostName, date, time,
          assetBrand, assetSerial, hasAssets, status,
          None, None, None, Missing,
          None, None, None, false, None, None, None, None, None)
  }

  datatype Role = Visitor | Kiosk | Porteria | Admin | Reception | Host | Sos

  function RoleName(r: Role): string {
    match r
    case Visitor => "visitor"
    case Kiosk => "kiosk"
    case Porteria => "porteria"
    case Admin => "admin"
    case Reception => "reception"
    case Host => "host"
    case Sos => "sos"
  }

  datatype Severity = Info | Warn | Crit

  /** An audit entry; `id` and `time` are both the instant of the call. */
  datatype LogEntry = LogEntry(id: int, action: string, detail: string, time: int, user: string)

  /** A toast; `id` is the instant of the call, which is also what dismissal filters on. */
  datatype Notification = Notification(id: int, msg: string, severity: Severity, ts: int)

  // ---------------------------------------------------------------------------------------
  // Filtering lists of records

  /** `list.filter(keep)`: the rows `keep` accepts, in their original order. */
  function Filter<T(!new)>(s: seq<T>, keep: T -> bool): (r: seq<T>)
    ensures |r| <= |s|
    ensures forall v :: v in r <==> v in s && keep(v)
    ensures multiset(r) <= multiset(s)
    ensures (forall i :: 0 <= i < |s| ==> keep(s[i])) ==> r == s
  {
    if s == [] then []
    else
      assert s == [s[0]] + s[1..];
      (if keep(s[0]) then [s[0]] else []) + Filter(s[1..], keep)
  }

  /** A filter keeps order: filtering a concatenation concatenates the filtered parts, and a
      single row survives exactly when it is accepted (`FilterOne`). */
  lemma {:induction false} FilterKeepsOrder<T(!new)>(a: seq<T>, b: seq<T>, keep: T -> bool)
    ensures Filter(a + b, keep) == Filter(a, keep) + Filter(b, keep)
  {
    if a != [] {
      assert (a + b)[0] == a[0];
      assert (a + b)[1..] == a[1..] + b;
      FilterKeepsOrder(a[1..], b, keep);
    } else {
      assert a + b == b;
    }
  }

  lemma FilterOne<T(!new)>(v: T, keep: T -> bool)
    ensures Filter([v], keep) == if keep(v) then [v] else []
  {
    assert [v][1..] == [];
  }

  /** Two filters that agree on every row of `s` give the same result. */
  lemma {:induction false} FilterAgrees<T(!new)>(s: seq<T>, keep1: T -> bool, keep2: T -> bool)
    requires forall v :: v in s ==> keep1(v) == keep2(v)
    ensures Filter(s, keep1) == Filter(s, keep2)
  {
    if s != [] {
      FilterAgrees(s[1..], keep1, keep2);
    }
  }
}
