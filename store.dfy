/** The visit-record engine of src/App.jsx: the store of visits, the audit log, the toasts,
    and the operations the views call.

    Every operation in the source rewrites the visit list with `prev.map(v => ...)`, replacing
    whole records whose id matches. Those list transforms are the functions below (each with
    a contract saying which records change and how); the class `App` holds the state and its
    methods apply them, append the log entry and the toast, and say what the new state is. */
module Store {
  import opened VisitModel
  import opened Codes

  /** Lifetime of a validation code, in milliseconds. */
  const CodeLifetime: nat := 30000

  /** `INITIAL_VISITS` (src/App.jsx:12-15). */
  function InitialVisits(): (r: seq<Visit>)
    ensures |r| == 2 && r[0].id == "v1" && r[1].id == "v2"
    ensures r[0].status == Pending && r[0].hasAssets && r[0].usesRemaining == Missing
    ensures r[0].qrCode == None && r[0].validationCode == None && r[0].validationExpiresAt == None
    ensures r[1].status == Approved && r[1].qrCode == Some("QR-V2-SECURE") && r[1].validationCode == None
    ensures r[1].validationExpiresAt == None
    ensures r[1].usesRemaining == Missing && !r[0].exitPermission && !r[1].exitPermission
  {
    [ BareVisit("v1", "Juan Pérez", "Tech Solutions", "Proveedor", "h1", "Ana López", Pending,
                "2025-11-26", "10:00", "0912345678", "Dell", "GTX-900", true),
      BareVisit("v2", "María Gomez", "Audit Corp", "Auditor", "h2", "Carlos Ruiz", Approved,
                "2025-11-26", "09:00", "0987654321", "", "", false).(qrCode := Some("QR-V2-SECURE")) ]
  }

  // ---------------------------------------------------------------------------------------
  // Lookup: `Array.prototype.find` over the store

  /** The three searches the core performs: by id (`handleCheckout`), by scanned QR payload
      (the kiosk scanner) and by code among approved visits (`handleCodeValidate`). */
  datatype Query = IdIs(id: string) | QrIs(token: string) | ApprovedWithCode(code: string)

  predicate Matches(v: Visit, q: Query) {
    match q
    case IdIs(id) => v.id == id
    case QrIs(token) => v.qrCode == Some(token)
    case ApprovedWithCode(code) => v.validationCode == Some(code) && v.status == Approved
  }

  /** The index of the first record matching `q`, if any. */
  function FindFirst(vs: seq<Visit>, q: Query): (r: Option<nat>)
    ensures r.Some? ==> r.value < |vs| && Matches(vs[r.value], q)
    ensures r.Some? ==> forall j :: 0 <= j < r.value ==> !Matches(vs[j], q)
    ensures r.None? <==> forall j :: 0 <= j < |vs| ==> !Matches(vs[j], q)
  {
    if vs == [] then None
    else if Matches(vs[0], q) then Some(0)
    else match FindFirst(vs[1..], q)
      case None => None
      case Some(k) => Some(k + 1)
  }

  // ---------------------------------------------------------------------------------------
  // Relations between a record before and after an operation

  predicate SameCredentials(a: Visit, b: Visit) {
    a.qrCode == b.qrCode && a.validationCode == b.validationCode &&
    a.validationExpiresAt == b.validationExpiresAt && a.usesRemaining == b.usesRemaining
  }

  /** `b` differs from `a` at most in the validation code and its expiry. */
  predicate SameExceptCode(a: Visit, b: Visit) {
    b == a.(validationCode := b.validationCode, validationExpiresAt := b.validationExpiresAt)
  }

  /** `b` differs from `a` at most in the status and the four credential fields. */
  predicate SameExceptStatusAndCredentials(a: Visit, b: Visit) {
    b == a.(status := b.status, qrCode := b.qrCode, validationCode := b.validationCode,
            validationExpiresAt := b.validationExpiresAt, usesRemaining := b.usesRemaining)
  }

  /** The credentials an approval at `now` issues: code `code`, a 30-second window, two uses
      and the token naming this visit and this instant. */
  predicate IssuedAt(v: Visit, code: string, now: nat) {
    v.validationCode == Some(code) && v.validationExpiresAt == Some(now + CodeLifetime) &&
    v.usesRemaining == Count(2) && v.qrCode == Some(QrToken(v.id, now))
  }

  /** JavaScript truthiness of an optional string / instant (`""` and `0` are falsy). */
  predicate TruthyText(s: Option<string>) { s.Some? && s.value != "" }
  predicate TruthyInstant(t: Option<int>) { t.Some? && t.value != 0 }

  /** The four credential fields are all present. */
  predicate HasCredentials(v: Visit) {
    TruthyText(v.validationCode) && TruthyText(v.qrCode) &&
    TruthyInstant(v.validationExpiresAt) && v.usesRemaining != Missing
  }

  /** The uses counter is absent or within the two uses approval issues (src/App.jsx:114)
      and the portal shows as "x / 2" (src/views/PublicPortal.jsx:138). */
  predicate UsesWellFormed(v: Visit) {
    v.usesRemaining == Missing || (v.usesRemaining.Count? && 0 <= v.usesRemaining.n <= 2)
  }

  /** All records other than those with id `id` are unchanged, and the list keeps its shape. */
  predicate OthersUnchanged(before: seq<Visit>, after: seq<Visit>, id: string) {
    |after| == |before| &&
    forall i :: 0 <= i < |before| ==> after[i].id == before[i].id &&
                                      (before[i].id != id ==> after[i] == before[i])
  }

  // ---------------------------------------------------------------------------------------
  // The list transforms (each `prev.map(...)` of src/App.jsx)

  /** Seeding effect (src/App.jsx:47-58): an approved record keeps each credential it already
      has (by truthiness for code, expiry and token; by `??` for the uses) and gets the missing
      ones; other records are untouched. */
  function SeedRecord(v: Visit, code: string, now: nat): (r: Visit)
    requires IsSixDigitCode(code)
    ensures v.status != Approved ==> r == v
    ensures v.status == Approved ==> r.status == Approved && SameExceptStatusAndCredentials(v, r)
    ensures v.status == Approved ==> SeedsCredentials(v, r, code, now) && HasCredentials(r)
  {
    if v.status == Approved then
      v.(validationCode := if TruthyText(v.validationCode) then v.validationCode else Some(code),
         validationExpiresAt := if TruthyInstant(v.validationExpiresAt) then v.validationExpiresAt
                                else Some(now + CodeLifetime),
         usesRemaining := if v.usesRemaining == Missing then Count(2) else v.usesRemaining,
         qrCode := if TruthyText(v.qrCode) then v.qrCode else Some(QrToken(v.id, now)))
    else v
  }

  /** What seeding does to each credential of an approved record: a value already there
      (truthy, or present for the `??` of the uses) is kept, a missing code becomes the draw,
      a missing expiry `now + 30000`, missing uses 2 and a missing token `QR-<id>-<now>`. */
  predicate SeedsCredentials(v: Visit, r: Visit, code: string, now: nat) {
    (TruthyText(v.validationCode) ==> r.validationCode == v.validationCode) &&
    (!TruthyText(v.validationCode) ==> r.validationCode == Some(code)) &&
    (TruthyInstant(v.validationExpiresAt) ==> r.validationExpiresAt == v.validationExpiresAt) &&
    (!TruthyInstant(v.validationExpiresAt) ==> r.validationExpiresAt == Some(now + CodeLifetime)) &&
    (v.usesRemaining != Missing ==> r.usesRemaining == v.usesRemaining) &&
    (v.usesRemaining == Missing ==> r.usesRemaining == Count(2)) &&
    (TruthyText(v.qrCode) ==> r.qrCode == v.qrCode) &&
    (!TruthyText(v.qrCode) ==> r.qrCode == Some(QrToken(v.id, now)))
  }

  function SeedAll(vs: seq<Visit>, codes: seq<string>, now: nat): (r: seq<Visit>)
    requires |codes| == |vs|
    requires forall i :: 0 <= i < |codes| ==> IsSixDigitCode(codes[i])
    ensures |r| == |vs|
    ensures forall i :: 0 <= i < |vs| ==> r[i].status == vs[i].status
    ensures forall i :: 0 <= i < |vs| ==> SameExceptStatusAndCredentials(vs[i], r[i])
    ensures forall i :: 0 <= i < |vs| && vs[i].status != Approved ==> r[i] == vs[i]
    ensures forall i :: 0 <= i < |vs| && vs[i].status == Approved ==>
              SeedsCredentials(vs[i], r[i], codes[i], now) && HasCredentials(r[i])
    ensures forall i :: 0 <= i < |vs| && HasCredentials(vs[i]) ==> r[i] == vs[i]
  {
    seq(|vs|, i requires 0 <= i < |vs| => SeedRecord(vs[i], codes[i], now))
  }

  /** Seeding is idempotent: a second run (with any draws, at any instant) changes nothing. */
  lemma SeedIdempotent(vs: seq<Visit>, codes1: seq<string>, now1: nat, codes2: seq<string>, now2: nat)
    requires |codes1| == |vs| && |codes2| == |vs|
    requires forall i :: 0 <= i < |vs| ==> IsSixDigitCode(codes1[i]) && IsSixDigitCode(codes2[i])
    ensures SeedAll(SeedAll(vs, codes1, now1), codes2, now2) == SeedAll(vs, codes1, now1)
  {
  }

  /** A record the 30-second rotation refreshes: approved, with uses left (absent counts as 2). */
  predicate RotationEligible(v: Visit)
    ensures RotationEligible(v) <==>
              v.status == Approved && (v.usesRemaining == Missing || (v.usesRemaining.Count? && v.usesRemaining.n > 0))
  {
    v.status == Approved && UsesAbove0(v.usesRemaining, 2)
  }

  /** Rotation tick (src/App.jsx:64-73). */
  function RotateRecord(v: Visit, code: string, now: nat): Visit {
    if RotationEligible(v) then
      v.(validationCode := Some(code), validationExpiresAt := Some(now + CodeLifetime))
    else v
  }

  function RotateAll(vs: seq<Visit>, codes: seq<string>, now: nat): (r: seq<Visit>)
    requires |codes| == |vs|
    ensures |r| == |vs|
    ensures forall i :: 0 <= i < |vs| ==> SameExceptCode(vs[i], r[i])
    ensures forall i :: 0 <= i < |vs| && RotationEligible(vs[i]) ==>
              r[i].validationCode == Some(codes[i]) && r[i].validationExpiresAt == Some(now + CodeLifetime)
    ensures forall i :: 0 <= i < |vs| && !RotationEligible(vs[i]) ==> r[i] == vs[i]
  {
    seq(|vs|, i requires 0 <= i < |vs| => RotateRecord(vs[i], codes[i], now))
  }

  /** `updateVisitStatus` on one record (src/App.jsx:106-118): the four credentials are
      re-issued exactly when the target status is `approved`. */
  function SetStatusRecord(v: Visit, status: Status, code: string, now: nat): Visit {
    var approving := status == Approved;
    v.(status := status,
       qrCode := if approving then Some(QrToken(v.id, now)) else v.qrCode,
       validationCode := if approving then Some(code) else v.validationCode,
       validationExpiresAt := if approving then Some(now + CodeLifetime) else v.validationExpiresAt,
       usesRemaining := if approving then Count(2) else v.usesRemaining)
  }

  function SetStatusAll(vs: seq<Visit>, id: string, status: Status, codes: seq<string>, now: nat): (r: seq<Visit>)
    requires |codes| == |vs|
    ensures OthersUnchanged(vs, r, id)
    ensures forall i :: 0 <= i < |vs| && vs[i].id == id ==>
              r[i].status == status && SameExceptStatusAndCredentials(vs[i], r[i])
    ensures forall i :: 0 <= i < |vs| && vs[i].id == id && status == Approved ==> IssuedAt(r[i], codes[i], now)
    ensures forall i :: 0 <= i < |vs| && vs[i].id == id && status != Approved ==> SameCredentials(vs[i], r[i])
  {
    seq(|vs|, i requires 0 <= i < |vs| =>
      if vs[i].id == id then SetStatusRecord(vs[i], status, codes[i], now) else vs[i])
  }

  /** `handleCheckIn` (src/App.jsx:125-133). */
  function CheckInAll(vs: seq<Visit>, id: string, ev: Evidence, now: nat): (r: seq<Visit>)
    ensures OthersUnchanged(vs, r, id)
    ensures forall i :: 0 <= i < |vs| && vs[i].id == id ==>
              r[i] == vs[i].(status := CheckedIn, checkIn := Some(now), evidence := Some(ev),
                             exitPermission := false)
  {
    seq(|vs|, i requires 0 <= i < |vs| =>
      if vs[i].id == id
      then vs[i].(status := CheckedIn, checkIn := Some(now), evidence := Some(ev), exitPermission := false)
      else vs[i])
  }

  /** `usesRemaining - 1` in JavaScript: an absent counter gives NaN. */
  function MinusOne(u: Uses): Uses {
    match u
    case Missing => NotANumber
    case Count(n) => Count(n - 1)
    case NotANumber => NotANumber
  }

  /** `decrementUse` (src/App.jsx:139-144): the guard uses `?? 2`, the subtraction does not. */
  function DecrementAll(vs: seq<Visit>, id: string): (r: seq<Visit>)
    ensures OthersUnchanged(vs, r, id)
    ensures forall i :: 0 <= i < |vs| ==> r[i] == vs[i].(usesRemaining := r[i].usesRemaining)
    ensures forall i :: 0 <= i < |vs| && vs[i].id == id ==>
              match vs[i].usesRemaining
              case Count(n) => r[i].usesRemaining == if n > 0 then Count(n - 1) else Count(n)
              case Missing => r[i].usesRemaining == NotANumber
              case NotANumber => r[i].usesRemaining == NotANumber
  {
    seq(|vs|, i requires 0 <= i < |vs| =>
      if vs[i].id == id && UsesAbove0(vs[i].usesRemaining, 2)
      then vs[i].(usesRemaining := MinusOne(vs[i].usesRemaining))
      else vs[i])
  }

  /** `handleAssetValidation` (src/App.jsx:149-151): the porter's exit authorization. */
  function AuthorizeExitAll(vs: seq<Visit>, id: string, guardian: string, now: nat): (r: seq<Visit>)
    ensures OthersUnchanged(vs, r, id)
    ensures forall i :: 0 <= i < |vs| && vs[i].id == id ==>
              r[i] == vs[i].(exitPermission := true, assetValidationTime := Some(now),
                             guardianName := Some(guardian))
  {
    seq(|vs|, i requires 0 <= i < |vs| =>
      if vs[i].id == id
      then vs[i].(exitPermission := true, assetValidationTime := Some(now), guardianName := Some(guardian))
      else vs[i])
  }

  /** The store update of `handleCheckout` (src/App.jsx:169), whatever the prior status. */
  function CheckOutAll(vs: seq<Visit>, id: string, now: nat): (r: seq<Visit>)
    ensures OthersUnchanged(vs, r, id)
    ensures forall i :: 0 <= i < |vs| && vs[i].id == id ==>
              r[i] == vs[i].(status := CheckedOut, checkOut := Some(now))
  {
    seq(|vs|, i requires 0 <= i < |vs| =>
      if vs[i].id == id then vs[i].(status := CheckedOut, checkOut := Some(now)) else vs[i])
  }

  /** `markJudicialResult` (src/App.jsx:176): attaches the result, status untouched. */
  function JudicialAll(vs: seq<Visit>, id: string, result: string, observation: string, now: nat): (r: seq<Visit>)
    ensures OthersUnchanged(vs, r, id)
    ensures forall i :: 0 <= i < |vs| && vs[i].id == id ==>
              r[i] == vs[i].(judicialCheck := Some(JudicialCheck(result, observation, now)))
  {
    seq(|vs|, i requires 0 <= i < |vs| =>
      if vs[i].id == id then vs[i].(judicialCheck := Some(JudicialCheck(result, observation, now))) else vs[i])
  }

  // ---------------------------------------------------------------------------------------
  // Properties of the transforms

  /** The rotation tick changes only code and expiry, and only on eligible records; token,
      uses and status stay, and an exhausted credential keeps its stale code. */
  lemma RotationTouchesOnlyCode(vs: seq<Visit>, codes: seq<string>, now: nat, i: nat)
    requires |codes| == |vs| && i < |vs|
    ensures var r := RotateAll(vs, codes, now);
      r[i].qrCode == vs[i].qrCode && r[i].usesRemaining == vs[i].usesRemaining &&
      r[i].status == vs[i].status && r[i].id == vs[i].id &&
      (vs[i].usesRemaining == Count(0) ==> r[i] == vs[i]) &&
      (vs[i].status != Approved ==> r[i] == vs[i])
  {
  }

  /** Approval issues a credential that is live now, six digits long, good for two uses, and
      whose QR token no other (visit, instant) issuance can produce. */
  lemma ApprovalIssuesFreshCredential(vs: seq<Visit>, id: string, codes: seq<string>, now: nat,
                                      i: nat, otherId: string, otherNow: nat)
    requires |codes| == |vs| && forall k :: 0 <= k < |codes| ==> IsSixDigitCode(codes[k])
    requires i < |vs| && vs[i].id == id
    requires otherId != id || otherNow != now
    ensures var r := SetStatusAll(vs, id, Approved, codes, now);
      r[i].status == Approved && RotationEligible(r[i]) && HasCredentials(r[i]) &&
      IsSixDigitCode(r[i].validationCode.value) && r[i].validationExpiresAt.value > now &&
      r[i].usesRemaining == Count(2) && r[i].qrCode != Some(QrToken(otherId, otherNow))
  {
    var r := SetStatusAll(vs, id, Approved, codes, now);
    if r[i].qrCode == Some(QrToken(otherId, otherNow)) {
      QrTokenInjective(id, now, otherId, otherNow);
    }
  }

  /** Rejection (or any other target) leaves every credential field as it was: a pending visit
      that is rejected never gains a code. */
  lemma RejectionIssuesNothing(vs: seq<Visit>, id: string, codes: seq<string>, now: nat, i: nat)
    requires |codes| == |vs| && i < |vs| && vs[i].id == id
    ensures var r := SetStatusAll(vs, id, Rejected, codes, now);
      r[i].status == Rejected && SameCredentials(vs[i], r[i])
  {
  }

  /** `updateVisitStatus` does not look at the current status: a checked-out visit can be
      approved again and gets a fresh credential. */
  lemma AnyTransitionAccepted(vs: seq<Visit>, id: string, codes: seq<string>, now: nat, i: nat)
    requires |codes| == |vs| && forall k :: 0 <= k < |codes| ==> IsSixDigitCode(codes[k])
    requires i < |vs| && vs[i].id == id && vs[i].status == CheckedOut
    ensures RotationEligible(SetStatusAll(vs, id, Approved, codes, now)[i])
  {
  }

  /** Check-in always closes the exit gate, whatever its prior value, and keeps credentials. */
  lemma CheckInClosesExitGate(vs: seq<Visit>, id: string, ev: Evidence, now: nat, i: nat)
    requires i < |vs| && vs[i].id == id
    ensures var r := CheckInAll(vs, id, ev, now);
      r[i].status == CheckedIn && !r[i].exitPermission && r[i].evidence == Some(ev) &&
      SameCredentials(vs[i], r[i])
  {
  }

  /** Decrementing keeps a counter in {0, 1, 2} inside {0, 1, 2}, and at 0 it is a no-op. */
  lemma DecrementKeepsBounds(vs: seq<Visit>, id: string, i: nat)
    requires i < |vs| && vs[i].usesRemaining.Count? && UsesWellFormed(vs[i])
    ensures UsesWellFormed(DecrementAll(vs, id)[i])
    ensures vs[i].usesRemaining == Count(0) ==> DecrementAll(vs, id)[i] == vs[i]
  {
  }

  /** A record without a counter (a walk-in) passes the `?? 2` guard and becomes NaN, which
      is outside {0, 1, 2}. */
  lemma DecrementOfMissingIsNaN(vs: seq<Visit>, id: string, i: nat)
    requires i < |vs| && vs[i].id == id && vs[i].usesRemaining == Missing
    ensures DecrementAll(vs, id)[i].usesRemaining == NotANumber
    ensures !UsesWellFormed(DecrementAll(vs, id)[i])
  {
  }

  /** Approve, consume twice, tick: the exhausted credential keeps its code and expiry. */
  lemma {:induction false} ExhaustedCredentialGoesStale(vs: seq<Visit>, id: string, i: nat,
                                                        codes1: seq<string>, now1: nat,
                                                        codes2: seq<string>, now2: nat)
    requires |codes1| == |vs| && |codes2| == |vs|
    requires i < |vs| && vs[i].id == id
    ensures var approved := SetStatusAll(vs, id, Approved, codes1, now1);
            var once := DecrementAll(approved, id);
            var twice := DecrementAll(once, id);
            approved[i].usesRemaining == Count(2) &&
            once[i].usesRemaining == Count(1) &&
            twice[i].usesRemaining == Count(0) &&
            RotateAll(twice, codes2, now2)[i] == twice[i] &&
            twice[i].validationCode == Some(codes1[i])
  {
    var approved := SetStatusAll(vs, id, Approved, codes1, now1);
    var once := DecrementAll(approved, id);
    var twice := DecrementAll(once, id);
    assert approved[i].usesRemaining == Count(2);
    assert once[i].usesRemaining == Count(1);
    assert twice[i].usesRemaining == Count(0);
  }

  // ---------------------------------------------------------------------------------------
  // Toasts

  /** The list left when the 4-second timer of toast `id` fires: every toast with that id
      is gone (ids are instants, so toasts raised in the same millisecond go together). */
  function WithoutId(ns: seq<Notification>, id: int): (r: seq<Notification>)
    ensures |r| <= |ns| && multiset(r) <= multiset(ns)
    ensures forall n :: n in r <==> n in ns && n.id != id
    ensures (forall k :: 0 <= k < |ns| ==> ns[k].id != id) ==> r == ns
  {
    Filter(ns, (n: Notification) => n.id != id)
  }

  /** Dismissal keeps the stack's order and every other toast: removing from a concatenation
      concatenates the removals, and a single toast goes exactly when it carries the id. */
  lemma WithoutIdKeepsOrder(a: seq<Notification>, b: seq<Notification>, n: Notification, id: int)
    ensures WithoutId(a + b, id) == WithoutId(a, id) + WithoutId(b, id)
    ensures WithoutId([n], id) == if n.id == id then [] else [n]
  {
    FilterKeepsOrder(a, b, (n: Notification) => n.id != id);
    FilterOne(n, (n: Notification) => n.id != id);
  }

  // ---------------------------------------------------------------------------------------
  // Demo login

  /** `demoAccounts.find(...)` (src/App.jsx:256-260, 273): the role of a matching account. */
  function DemoAccountRole(email: string, pass: string): (r: Option<Role>)
    ensures r.Some? ==> r.value in {Kiosk, Porteria, Admin}
    ensures r == Some(Admin) <==> email == "admin@demo.com" && pass == "admin123"
    ensures r == Some(Kiosk) <==> email == "kiosk@demo.com" && pass == "kiosk123"
    ensures r == Some(Porteria) <==> email == "guardia@demo.com" && pass == "guardia123"
  {
    if email == "kiosk@demo.com" && pass == "kiosk123" then Some(Kiosk)
    else if email == "guardia@demo.com" && pass == "guardia123" then Some(Porteria)
    else if email == "admin@demo.com" && pass == "admin123" then Some(Admin)
    else None
  }

  // ---------------------------------------------------------------------------------------
  // Portal form and request creation

  /** The visitor portal's form (`portalFormData`, src/App.jsx:35-38). */
  datatype PortalForm = PortalForm(visitorName: string, email: string, company: string, motive: string,
                                   visitType: string, date: string, time: string, cedula: string,
                                   phone: string, residenceType: string, passport: string)

  /** The form as first shown (src/App.jsx:35-38). */
  const InitialPortalForm: PortalForm :=
    PortalForm("", "", "", "", "Cliente", "", "", "", "", "national", "")

  /** The record `createVisitRequest` prepends (src/App.jsx:92-99). The form has no asset
      brand, so `!!data.assetBrand` is false and a portal request never declares assets. */
  function RequestedVisit(data: PortalForm, now: nat): (v: Visit)
    ensures v.status == Pending && v.hostId == "h1" && v.hostName == "Ana López"
    ensures !v.hasAssets && v.assetBrand == "" && v.assetSerial == ""
    ensures v.id == "v" + NatToString(now)
    ensures v.visitorName == data.visitorName && v.company == data.company && v.email == data.email
    ensures v.cedula == data.cedula && v.phone == data.phone && v.residenceType == data.residenceType
    ensures v.passport == data.passport && v.visitType == data.visitType && v.motive == data.motive
    ensures v.date == data.date && v.time == data.time
    ensures v.qrCode == None && v.validationCode == None && v.validationExpiresAt == None
    ensures v.usesRemaining == Missing && !v.exitPermission
    ensures v.checkIn == None && v.checkOut == None && v.evidence == None
  {
    Visit("v" + NatToString(now), data.visitorName, data.company, data.email, data.cedula, data.phone,
          data.residenceType, data.passport, data.visitType, data.motive, "h1", "Ana López",
          data.date, data.time, "", "", false, Pending,
          None, None, None, Missing, None, None, None, false, None, None, None, None, None)
  }

  /** Outcome of `handleCheckout`: `true`, `false`, or the TypeError thrown when the guard
      reads `exitPermission` of a visit that is not in the store. */
  datatype CheckoutResult = Released | Denied | Crashed

  /** The checkout guard (src/App.jsx:159-167): only the kiosk role is held back, only by a
      missing exit permission; the status is never consulted. */
  function CheckoutDecision(role: Role, vs: seq<Visit>, id: string): (r: CheckoutResult)
    ensures role != Kiosk ==> r == Released
    ensures r == Denied <==> role == Kiosk && exists i :: 0 <= i < |vs| && vs[i].id == id &&
                                                 !vs[i].exitPermission && (forall j :: 0 <= j < i ==> vs[j].id != id)
    ensures r == Crashed <==> role == Kiosk && forall i :: 0 <= i < |vs| ==> vs[i].id != id
  {
    if role != Kiosk then Released
    else match FindFirst(vs, IdIs(id))
      case None => Crashed
      case Some(k) => if vs[k].exitPermission then Released else Denied
  }

  // ---------------------------------------------------------------------------------------
  // The application state

  class App {
    var role: Role
    var authenticated: bool
    var visits: seq<Visit>
    var logs: seq<LogEntry>           // newest first
    var notifications: seq<Notification>
    var lastCodeRotation: int
    var codeLookup: string
    var codeVisit: Option<Visit>
    var codeError: string
    var portalStep: int
    var portalForm: PortalForm

    /** The state on mount (src/App.jsx:21-42), before the seeding effect runs. */
    constructor (now: nat)
      ensures role == Admin && !authenticated && visits == InitialVisits()
      ensures logs == [] && notifications == [] && lastCodeRotation == now
      ensures codeLookup == "" && codeVisit == None && codeError == ""
      ensures portalStep == 1 && portalForm == InitialPortalForm
    {
      role := Admin;
      authenticated := false;
      visits := InitialVisits();
      logs := [];
      notifications := [];
      lastCodeRotation := now;
      codeLookup := "";
      codeVisit := None;
      codeError := "";
      portalStep := 1;
      portalForm := InitialPortalForm;
    }

    /** `addNotification` (src/App.jsx:81-85): appends one toast. */
    method AddNotification(msg: string, severity: Severity, now: nat)
      modifies this`notifications
      ensures notifications == old(notifications) + [Notification(now, msg, severity, now)]
    {
      notifications := notifications + [Notification(now, msg, severity, now)];
    }

    /** The 4-second dismissal timer of toast `id` (src/App.jsx:84); harmless if it is gone. */
    method DismissNotification(id: int)
      modifies this`notifications
      ensures notifications == WithoutId(old(notifications), id)
    {
      notifications := WithoutId(notifications, id);
    }

    /** `clearNotifications` (src/App.jsx:378). */
    method ClearNotifications()
      modifies this`notifications
      ensures notifications == []
    {
      notifications := [];
    }

    /** `addLog` (src/App.jsx:87-89): prepends one entry, so the log reads newest first. */
    method AddLog(action: string, detail: string, user: string, now: nat)
      modifies this`logs
      ensures logs == [LogEntry(now, action, detail, now, user)] + old(logs)
    {
      logs := [LogEntry(now, action, detail, now, user)] + logs;
    }

    /** Seeding effect (src/App.jsx:45-59), run once after mount. */
    method SeedCredentials(now: nat)
      modifies this`visits
      ensures exists codes :: |codes| == |old(visits)| &&
                (forall i :: 0 <= i < |codes| ==> IsSixDigitCode(codes[i])) &&
                visits == SeedAll(old(visits), codes, now)
    {
      var codes := DrawCodes(|visits|);
      visits := SeedAll(visits, codes, now);
    }

    /** One firing of the 30-second rotation interval (src/App.jsx:63-75). */
    method RotationTick(now: nat)
      modifies this`visits, this`lastCodeRotation
      ensures exists codes :: |codes| == |old(visits)| &&
                (forall i :: 0 <= i < |codes| ==> IsSixDigitCode(codes[i])) &&
                visits == RotateAll(old(visits), codes, now)
      ensures lastCodeRotation == now
    {
      var codes := DrawCodes(|visits|);
      visits := RotateAll(visits, codes, now);
      lastCodeRotation := now;
    }

    /** `createVisitRequest` (src/App.jsx:91-103). */
    method CreateVisitRequest(data: PortalForm, now: nat)
      modifies this`visits, this`logs, this`notifications
      ensures visits == [RequestedVisit(data, now)] + old(visits)
      ensures logs == [LogEntry(now, "Solicitud", "Nueva solicitud de " + data.visitorName, now,
                                "Sistema Público")] + old(logs)
      ensures notifications == old(notifications) + [Notification(now, "Solicitud enviada con éxito.", Info, now)]
    {
      visits := [RequestedVisit(data, now)] + visits;
      AddLog("Solicitud", "Nueva solicitud de " + data.visitorName, "Sistema Público", now);
      AddNotification("Solicitud enviada con éxito.", Info, now);
    }

    /** `updateVisitStatus` (src/App.jsx:105-121): any target from any status; one log entry
        and one toast whatever the target. */
    method UpdateVisitStatus(id: string, status: Status, actorName: string, now: nat)
      modifies this`visits, this`logs, this`notifications
      ensures exists codes :: |codes| == |old(visits)| &&
                (forall i :: 0 <= i < |codes| ==> IsSixDigitCode(codes[i])) &&
                visits == SetStatusAll(old(visits), id, status, codes, now)
      ensures logs == [LogEntry(now, "Cambio de Estado",
                                "Visita " + id + " cambió a " + StatusName(status), now, actorName)] + old(logs)
      ensures notifications == old(notifications) +
                [Notification(now, if status == Approved then "Visita Aprobada" else "Visita Actualizada", Info, now)]
    {
      var codes := DrawCodes(|visits|);
      visits := SetStatusAll(visits, id, status, codes, now);
      AddLog("Cambio de Estado", "Visita " + id + " cambió a " + StatusName(status), actorName, now);
      AddNotification(if status == Approved then "Visita Aprobada" else "Visita Actualizada", Info, now);
    }

    /** `handleCheckIn` (src/App.jsx:124-136). */
    method HandleCheckIn(id: string, ev: Evidence, now: nat)
      modifies this`visits, this`logs, this`notifications
      ensures visits == CheckInAll(old(visits), id, ev, now)
      ensures logs == [LogEntry(now, "Check-in", "Ingreso confirmado ID " + id + " con evidencias", now,
                                "Kiosko")] + old(logs)
      ensures notifications == old(notifications) + [Notification(now, "Check-in exitoso. Bienvenido.", Info, now)]
    {
      visits := CheckInAll(visits, id, ev, now);
      AddLog("Check-in", "Ingreso confirmado ID " + id + " con evidencias", "Kiosko", now);
      AddNotification("Check-in exitoso. Bienvenido.", Info, now);
    }

    /** `decrementUse` (src/App.jsx:138-145): no log, no toast. */
    method DecrementUse(id: string)
      modifies this`visits
      ensures visits == DecrementAll(old(visits), id)
    {
      visits := DecrementAll(visits, id);
    }

    /** `handleAssetValidation` (src/App.jsx:148-154): the porter opens the exit gate. */
    method HandleAssetValidation(id: string, guardianName: string, now: nat)
      modifies this`visits, this`logs, this`notifications
      ensures visits == AuthorizeExitAll(old(visits), id, guardianName, now)
      ensures logs == [LogEntry(now, "Validación Activos", "Salida autorizada para " + id, now,
                                guardianName)] + old(logs)
      ensures notifications == old(notifications) + [Notification(now, "Salida autorizada por Portería.", Info, now)]
    {
      visits := AuthorizeExitAll(visits, id, guardianName, now);
      AddLog("Validación Activos", "Salida autorizada para " + id, guardianName, now);
      AddNotification("Salida autorizada por Portería.", Info, now);
    }

    /** `handleCheckout` (src/App.jsx:157-173). A denial leaves visits and logs alone and
        raises one critical toast; a crash changes nothing. */
    method HandleCheckout(id: string, now: nat) returns (r: CheckoutResult)
      modifies this`visits, this`logs, this`notifications
      ensures r == CheckoutDecision(role, old(visits), id)
      ensures r == Released ==>
                visits == CheckOutAll(old(visits), id, now) &&
                logs == [LogEntry(now, "Check-out", "Salida registrada para ID " + id, now, RoleName(role))] + old(logs) &&
                notifications == old(notifications) + [Notification(now, "Salida registrada. Hasta pronto.", Info, now)]
      ensures r == Denied ==>
                visits == old(visits) && logs == old(logs) &&
                notifications == old(notifications) +
                  [Notification(now, "⚠️ SALIDA DENEGADA: Portería debe validar activos y escarapela primero.", Crit, now)]
      ensures r == Crashed ==> visits == old(visits) && logs == old(logs) && notifications == old(notifications)
    {
      r := CheckoutDecision(role, visits, id);
      if r == Crashed {
        return;
      }
      if r == Denied {
        AddNotification("⚠️ SALIDA DENEGADA: Portería debe validar activos y escarapela primero.", Crit, now);
        return;
      }
      visits := CheckOutAll(visits, id, now);
      AddLog("Check-out", "Salida registrada para ID " + id, RoleName(role), now);
      AddNotification("Salida registrada. Hasta pronto.", Info, now);
    }

    /** `markJudicialResult` (src/App.jsx:175-179). */
    method MarkJudicialResult(id: string, result: string, observation: string, now: nat)
      modifies this`visits, this`logs, this`notifications
      ensures visits == JudicialAll(old(visits), id, result, observation, now)
      ensures logs == [LogEntry(now, "Verificación Judicial", "Visita " + id + ": " + result, now,
                                "Seguridad")] + old(logs)
      ensures notifications == old(notifications) + [Notification(now, "Verificación judicial: " + result, Info, now)]
    {
      visits := JudicialAll(visits, id, result, observation, now);
      AddLog("Verificación Judicial", "Visita " + id + ": " + result, "Seguridad", now);
      AddNotification("Verificación judicial: " + result, Info, now);
    }

    /** `handleLogout` (src/App.jsx:262-269). */
    method HandleLogout(now: nat)
      modifies this`authenticated, this`role, this`notifications
      ensures !authenticated && role == Admin
      ensures notifications == old(notifications) + [Notification(now, "Sesión cerrada", Info, now)]
    {
      authenticated := false;
      role := Admin;
      AddNotification("Sesión cerrada", Info, now);
    }

    /** `handleLogin` (src/App.jsx:271-279), with the two form inputs as arguments. */
    method HandleLogin(email: string, pass: string, now: nat)
      modifies this`authenticated, this`role, this`logs, this`notifications
      ensures email == "" || pass == "" ==>
                authenticated == old(authenticated) && role == old(role) && logs == old(logs) &&
                notifications == old(notifications) + [Notification(now, "Datos incompletos", Warn, now)]
      ensures email != "" && pass != "" && DemoAccountRole(email, pass).None? ==>
                authenticated == old(authenticated) && role == old(role) && logs == old(logs) &&
                notifications == old(notifications) + [Notification(now, "Credenciales inválidas", Crit, now)]
      ensures email != "" && pass != "" && DemoAccountRole(email, pass).Some? ==>
                authenticated && role == DemoAccountRole(email, pass).value &&
                logs == [LogEntry(now, "Login", "Ingreso de " + email, now, "Portal Auth")] + old(logs) &&
                notifications == old(notifications)
    {
      if email == "" || pass == "" {
        AddNotification("Datos incompletos", Warn, now);
        return;
      }
      var account := DemoAccountRole(email, pass);
      if account.None? {
        AddNotification("Credenciales inválidas", Crit, now);
        return;
      }
      authenticated := true;
      role := account.value;
      AddLog("Login", "Ingreso de " + email, "Portal Auth", now);
    }

    /** `handleCodeValidate` (src/App.jsx:282-290): the first approved visit holding the typed
        code, with no look at expiry or remaining uses; a miss keeps the previous result. */
    method HandleCodeValidate()
      modifies this`codeVisit, this`codeError
      ensures match FindFirst(visits, ApprovedWithCode(codeLookup))
              case Some(k) => codeVisit == Some(visits[k]) && codeError == ""
              case None => codeVisit == old(codeVisit) && codeError == "Código no válido."
    {
      var found := FindFirst(visits, ApprovedWithCode(codeLookup));
      if found.Some? {
        codeVisit := Some(visits[found.value]);
        codeError := "";
      } else {
        codeError := "Código no válido.";
      }
    }
  }

  /** Code lookup ignores expiry and remaining uses: an approved visit whose code expired long
      ago and whose uses are exhausted is still found by its code. */
  lemma CodeLookupIgnoresExpiryAndUses(vs: seq<Visit>, code: string, now: nat, i: nat)
    requires i < |vs| && vs[i].status == Approved && vs[i].validationCode == Some(code)
    requires vs[i].validationExpiresAt.Some? && vs[i].validationExpiresAt.value < now
    requires vs[i].usesRemaining == Count(0)
    requires forall j :: 0 <= j < i ==> vs[j].validationCode != Some(code)
    ensures FindFirst(vs, ApprovedWithCode(code)) == Some(i)
  {
  }

  /** The exit gate is open on no record. */
  predicate GateClosed(vs: seq<Visit>) {
    forall i :: 0 <= i < |vs| ==> !vs[i].exitPermission
  }

  /** Only `handleAssetValidation` opens the exit gate: the initial records, a new request and
      every other store operation leave a closed gate closed. */
  lemma GateOpensOnlyByAssetValidation(vs: seq<Visit>, id: string, codes: seq<string>, ev: Evidence,
                                       data: PortalForm, result: string, observation: string, now: nat)
    requires |codes| == |vs| && forall k :: 0 <= k < |codes| ==> IsSixDigitCode(codes[k])
    requires GateClosed(vs)
    ensures GateClosed(InitialVisits())
    ensures GateClosed([RequestedVisit(data, now)] + vs)
    ensures GateClosed(SeedAll(vs, codes, now)) && GateClosed(RotateAll(vs, codes, now))
    ensures forall s :: GateClosed(SetStatusAll(vs, id, s, codes, now))
    ensures GateClosed(CheckInAll(vs, id, ev, now)) && GateClosed(DecrementAll(vs, id))
    ensures GateClosed(CheckOutAll(vs, id, now)) && GateClosed(JudicialAll(vs, id, result, observation, now))
  {
    var withRequest := [RequestedVisit(data, now)] + vs;
    forall k | 1 <= k < |withRequest| ensures !withRequest[k].exitPermission {
      assert withRequest[k] == vs[k - 1];
    }
  }

  /** The checkout guard: a kiosk is held back by a closed gate, every
      other role goes through whether the gate is open or not. */
  lemma CheckoutGuardIsAsymmetric(role: Role, vs: seq<Visit>, id: string, i: nat)
    requires i < |vs| && vs[i].id == id && !vs[i].exitPermission
    requires forall j :: 0 <= j < i ==> vs[j].id != id
    ensures CheckoutDecision(Kiosk, vs, id) == Denied
    ensures role != Kiosk ==> CheckoutDecision(role, vs, id) == Released
  {
  }
}
