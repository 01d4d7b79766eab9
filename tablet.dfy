/** The reception kiosk of src/views/TabletMode.jsx: a wizard over `view`, `flowType`,
    `scannedData` and `evidence` that calls the store's operations.

    The camera, the QR decoder and the signature pad are outside the model: a decoded QR
    payload, a captured image and the pad's state arrive as arguments. */
module TabletMode {
  import opened VisitModel
  import opened Codes
  import opened Store

  datatype View = Home | Scan | Walkin | PhotoId | PhotoAsset | Signature | Process | ProcessExit
  datatype Flow = Entry | Exit
  datatype PhotoSlot = DocPhoto | AssetPhoto

  /** The signature pad as `saveSignatureAndFinish` finds it: not mounted (its ref is null),
      mounted and empty, or holding a drawing (the data URL it exports). */
  datatype Pad = Unmounted | Blank | Drawn(image: string)

  /** The walk-in form (`walkinData`). */
  datatype WalkinForm = WalkinForm(name: string, company: string, doc: string, host: string)

  /** A visit on the kiosk's "upcoming visits" list (src/views/TabletMode.jsx:32-34): approved,
      uses left with an absent counter counting as 0, and a code to reveal. */
  predicate Arriving(v: Visit)
    ensures Arriving(v) <==> v.status == Approved && v.usesRemaining.Count? && v.usesRemaining.n > 0 &&
                             v.validationCode.Some? && v.validationCode.value != ""
  {
    v.status == Approved && UsesAbove0(v.usesRemaining, 0) && TruthyText(v.validationCode)
  }

  /** `activeVisits`: the arriving visits, in store order. */
  function ActiveVisits(vs: seq<Visit>): (r: seq<Visit>)
    ensures |r| <= |vs|
    ensures forall v :: v in r <==> v in vs && Arriving(v)
  {
    Filter(vs, Arriving)
  }

  /** Where the entry flow goes once a scanned token matched `found`
      (src/views/TabletMode.jsx:65-73). */
  function EntryStep(found: Visit): (next: View)
    ensures next == Home <==> found.status == CheckedIn
    ensures next != Home ==> next == PhotoId
  {
    if found.status == CheckedIn then Home else PhotoId
  }

  /** The step after the identity photo (src/views/TabletMode.jsx:252). */
  function StepAfterPhotoId(v: Visit): (next: View)
    ensures next == PhotoAsset <==> v.hasAssets
    ensures next == PhotoAsset || next == Signature
  {
    if v.hasAssets then PhotoAsset else Signature
  }

  /** The record `handleWalkinSubmit` creates (src/views/TabletMode.jsx:137-145): approved at
      once, no credential of any kind, and the document number is not stored. */
  function WalkinVisit(form: WalkinForm, now: nat): (v: Visit)
    ensures v.status == Approved && !v.hasAssets
    ensures v.visitorName == form.name
    ensures v.company == (if form.company == "" then "Particular" else form.company)
    ensures v.hostName == (if form.host == "" then "Recepción" else form.host)
    ensures v.qrCode == None && v.validationCode == None && v.validationExpiresAt == None
    ensures v.usesRemaining == Missing && v.cedula == "" && !v.exitPermission
    ensures v.id == "w-" + NatToString(now) && v.visitType == "Visitante" && v.hostId == ""
  {
    BareVisit("w-" + NatToString(now), form.name,
              if form.company == "" then "Particular" else form.company, "Visitante",
              "", if form.host == "" then "Recepción" else form.host, Approved, "", "", "", "", "", false)
  }

  class Tablet {
    var view: View
    var flowType: Flow
    var scannedData: Option<Visit>
    var evidence: Evidence

    /** Every wizard step past the scanner works on a scanned (or just created) visit. */
    predicate Valid()
      reads this
    {
      view in {PhotoId, PhotoAsset, Signature, Process, ProcessExit} ==> scannedData.Some?
    }

    /** Initial state (src/views/TabletMode.jsx:12-19). */
    constructor ()
      ensures Valid()
      ensures view == Home && flowType == Entry && scannedData == None && evidence == NoEvidence
    {
      view := Home;
      flowType := Entry;
      scannedData := None;
      evidence := NoEvidence;
    }

    /** "Registrar Entrada" / "Registrar Salida" on the home screen (src/views/TabletMode.jsx:190, 196). */
    method StartScan(flow: Flow)
      requires Valid()
      modifies this`flowType, this`view
      ensures Valid() && flowType == flow && view == Scan
    {
      flowType := flow;
      view := Scan;
    }

    /** "¿No tienes código?" on the home screen (src/views/TabletMode.jsx:204). */
    method OpenWalkin()
      requires Valid()
      modifies this`view
      ensures Valid() && view == Walkin
    {
      view := Walkin;
    }

    /** The back buttons of the scanner and the walk-in form (src/views/TabletMode.jsx:311, 329). */
    method BackToHome()
      requires Valid()
      modifies this`view
      ensures Valid() && view == Home
    {
      view := Home;
    }

    /** "Terminar" / "Volver al Inicio" on the two success screens (src/views/TabletMode.jsx:387, 399). */
    method Done()
      requires Valid()
      modifies this`view, this`scannedData
      ensures Valid() && view == Home && scannedData == None
    {
      view := Home;
      scannedData := None;
    }

    /** The match and routing part of `scanFrame` (src/views/TabletMode.jsx:47-89) for one
        decoded frame. Outside the scanner, without a decoded payload, or without a visit whose
        token equals the payload, nothing changes and scanning continues. */
    method ScanFrame(app: App, decoded: Option<string>, now: nat)
      requires Valid()
      modifies this`view, this`scannedData, this`evidence, app`visits, app`logs, app`notifications
      ensures Valid()
      ensures old(view) != Scan || decoded.None? || FindFirst(old(app.visits), QrIs(decoded.value)).None? ==>
                view == old(view) && scannedData == old(scannedData) && evidence == old(evidence) &&
                app.visits == old(app.visits) && app.logs == old(app.logs) &&
                app.notifications == old(app.notifications)
      ensures old(view) == Scan && decoded.Some? && FindFirst(old(app.visits), QrIs(decoded.value)).Some? ==>
                var found := old(app.visits)[FindFirst(old(app.visits), QrIs(decoded.value)).value];
                scannedData == Some(found) &&
                (flowType == Entry ==>
                   view == EntryStep(found) && app.visits == old(app.visits) && app.logs == old(app.logs) &&
                   (found.status == CheckedIn ==>
                      evidence == old(evidence) &&
                      app.notifications == old(app.notifications) +
                                           [Notification(now, "Esta visita ya ingresó.", Warn, now)]) &&
                   (found.status != CheckedIn ==>
                      evidence == NoEvidence && app.notifications == old(app.notifications))) &&
                (flowType == Exit ==>
                   evidence == old(evidence) &&
                   var decision := CheckoutDecision(app.role, old(app.visits), found.id);
                   decision != Crashed &&
                   (decision == Released ==>
                      view == ProcessExit && app.visits == CheckOutAll(old(app.visits), found.id, now) &&
                      app.logs == [LogEntry(now, "Check-out", "Salida registrada para ID " + found.id, now,
                                            RoleName(app.role))] + old(app.logs) &&
                      app.notifications == old(app.notifications) +
                                           [Notification(now, "Salida registrada. Hasta pronto.", Info, now)]) &&
                   (decision == Denied ==>
                      view == Home && app.visits == old(app.visits) && app.logs == old(app.logs) &&
                      app.notifications == old(app.notifications) +
                        [Notification(now, "⚠️ SALIDA DENEGADA: Portería debe validar activos y escarapela primero.", Crit, now)]))
    {
      if view != Scan || decoded.None? {
        return;
      }
      var k := FindFirst(app.visits, QrIs(decoded.value));
      if k.None? {
        return;
      }
      var found := app.visits[k.value];
      scannedData := Some(found);
      if flowType == Entry {
        if found.status == CheckedIn {
          app.AddNotification("Esta visita ya ingresó.", Warn, now);
          view := Home;
        } else {
          evidence := NoEvidence;
          view := PhotoId;
        }
      } else {
        assert Matches(found, IdIs(found.id));
        var outcome := app.HandleCheckout(found.id, now);
        view := if outcome == Released then ProcessExit else Home;
      }
    }

    /** "Capturar Foto" / "Capturar Activo" (src/views/TabletMode.jsx:94-97). */
    method CapturePhoto(slot: PhotoSlot, image: string)
      requires Valid()
      modifies this`evidence
      ensures Valid()
      ensures evidence == match slot
                          case DocPhoto => old(evidence).(docPhoto := Some(image))
                          case AssetPhoto => old(evidence).(assetPhoto := Some(image))
    {
      match slot
      case DocPhoto => evidence := evidence.(docPhoto := Some(image));
      case AssetPhoto => evidence := evidence.(assetPhoto := Some(image));
    }

    /** "Repetir" (src/views/TabletMode.jsx:251, 276). */
    method RetakePhoto(slot: PhotoSlot)
      requires Valid()
      modifies this`evidence
      ensures Valid()
      ensures evidence == match slot
                          case DocPhoto => old(evidence).(docPhoto := None)
                          case AssetPhoto => old(evidence).(assetPhoto := None)
    {
      match slot
      case DocPhoto => evidence := evidence.(docPhoto := None);
      case AssetPhoto => evidence := evidence.(assetPhoto := None);
    }

    /** "Continuar" after the identity photo (src/views/TabletMode.jsx:252); the button exists
        only on the identity-photo screen once a photo was taken, and there a visit is always
        in hand, so reading `scannedData.hasAssets` cannot throw. */
    method ContinueFromPhotoId()
      requires Valid() && view == PhotoId && evidence.docPhoto.Some?
      modifies this`view
      ensures Valid() && view == StepAfterPhotoId(scannedData.value)
    {
      view := StepAfterPhotoId(scannedData.value);
    }

    /** "Continuar" after the asset photo (src/views/TabletMode.jsx:277); the button exists only
        on the asset-photo screen. */
    method ContinueFromPhotoAsset()
      requires Valid() && view == PhotoAsset
      modifies this`view
      ensures Valid() && view == Signature
    {
      view := Signature;
    }

    /** `saveSignatureAndFinish` (src/views/TabletMode.jsx:103-131): check-in with the collected
        evidence plus the signature, then exactly one use consumed, then the success screen. */
    method SaveSignatureAndFinish(app: App, pad: Pad, now: nat)
      requires Valid()
      modifies this`view, app`visits, app`logs, app`notifications
      ensures Valid()
      ensures pad.Unmounted? ==>
                view == old(view) && app.visits == old(app.visits) && app.logs == old(app.logs) &&
                app.notifications == old(app.notifications)
      ensures pad.Blank? ==>
                view == old(view) && app.visits == old(app.visits) && app.logs == old(app.logs) &&
                app.notifications == old(app.notifications) +
                                     [Notification(now, "Por favor firme para continuar", Warn, now)]
      ensures pad.Drawn? && (scannedData.None? || scannedData.value.id == "") ==>
                view == Home && app.visits == old(app.visits) && app.logs == old(app.logs) &&
                app.notifications == old(app.notifications) +
                                     [Notification(now, "Error de sesión. Reinicie el proceso.", Crit, now)]
      ensures pad.Drawn? && scannedData.Some? && scannedData.value.id != "" ==>
                var id := scannedData.value.id;
                view == Process &&
                app.visits == DecrementAll(CheckInAll(old(app.visits), id,
                                                      evidence.(signature := Some(pad.image)), now), id) &&
                app.logs == [LogEntry(now, "Check-in", "Ingreso confirmado ID " + id + " con evidencias", now,
                                      "Kiosko")] + old(app.logs) &&
                app.notifications == old(app.notifications) +
                                     [Notification(now, "Check-in exitoso. Bienvenido.", Info, now)]
    {
      match pad
      case Unmounted =>
        return;
      case Blank =>
        app.AddNotification("Por favor firme para continuar", Warn, now);
      case Drawn(image) =>
        if scannedData.None? || scannedData.value.id == "" {
          app.AddNotification("Error de sesión. Reinicie el proceso.", Crit, now);
          view := Home;
          return;
        }
        var id := scannedData.value.id;
        app.HandleCheckIn(id, evidence.(signature := Some(image)), now);
        app.DecrementUse(id);
        view := Process;
    }

    /** `handleWalkinSubmit` (src/views/TabletMode.jsx:133-151): nothing unless name and
        document are filled; otherwise one record is prepended (no log, no toast) and the
        wizard starts on it. */
    method HandleWalkinSubmit(app: App, form: WalkinForm, now: nat)
      requires Valid()
      modifies this`view, this`scannedData, this`evidence, app`visits
      ensures Valid()
      ensures form.name == "" || form.doc == "" ==>
                view == old(view) && scannedData == old(scannedData) && evidence == old(evidence) &&
                app.visits == old(app.visits)
      ensures form.name != "" && form.doc != "" ==>
                app.visits == [WalkinVisit(form, now)] + old(app.visits) &&
                scannedData == Some(WalkinVisit(form, now)) && evidence == NoEvidence && view == PhotoId
    {
      if form.name == "" || form.doc == "" {
        return;
      }
      var walkin := WalkinVisit(form, now);
      app.visits := [walkin] + app.visits;
      scannedData := Some(walkin);
      evidence := NoEvidence;
      view := PhotoId;
    }
  }

  // ---------------------------------------------------------------------------------------
  // Properties of the wizard

  /** Finishing the wizard on a visit with uses left checks it in with the gate closed and
      consumes exactly one use. */
  lemma FinishConsumesOneUse(vs: seq<Visit>, id: string, ev: Evidence, now: nat, i: nat, n: int)
    requires i < |vs| && vs[i].id == id && vs[i].usesRemaining == Count(n) && n > 0
    ensures var r := DecrementAll(CheckInAll(vs, id, ev, now), id);
      r[i].status == CheckedIn && !r[i].exitPermission && r[i].evidence == Some(ev) &&
      r[i].usesRemaining == Count(n - 1) && r[i].qrCode == vs[i].qrCode
  {
  }

  /** A walk-in finishing the wizard ends with NaN uses: the `?? 2` guard lets the absent
      counter through and `undefined - 1` is NaN. */
  lemma WalkinFinishYieldsNaN(form: WalkinForm, vs: seq<Visit>, now: nat, ev: Evidence, later: nat)
    ensures var w := WalkinVisit(form, now);
      var r := DecrementAll(CheckInAll([w] + vs, w.id, ev, later), w.id);
      r[0].status == CheckedIn && r[0].usesRemaining == NotANumber && !UsesWellFormed(r[0])
  {
  }

  /** A walk-in is never on the kiosk's arrivals list, yet the next rotation tick gives it a
      code: the list reads an absent counter as 0, the rotation as 2. */
  lemma WalkinRotatedButNotListed(form: WalkinForm, now: nat, codes: seq<string>, later: nat)
    requires |codes| == 1
    ensures var w := WalkinVisit(form, now);
      ActiveVisits([w]) == [] && RotateAll([w], codes, later)[0].validationCode == Some(codes[0])
  {
  }

  /** The entry flow re-admits a checked-out visit whose token still scans: only `checked-in`
      is turned away. */
  lemma CheckedOutVisitReenters(v: Visit)
    requires v.status == CheckedOut
    ensures EntryStep(v) == PhotoId
  {
  }

  /** The exit flow checks out the visit the scan just found, so the crash on an unknown id
      cannot happen from the kiosk: the outcome is a release or a denial by the gate alone. */
  lemma ExitScanNeverCrashes(vs: seq<Visit>, token: string)
    requires FindFirst(vs, QrIs(token)).Some?
    ensures var found := vs[FindFirst(vs, QrIs(token)).value];
      CheckoutDecision(Kiosk, vs, found.id) != Crashed &&
      (CheckoutDecision(Kiosk, vs, found.id) == Released <==>
         vs[FindFirst(vs, IdIs(found.id)).value].exitPermission)
  {
    var found := vs[FindFirst(vs, QrIs(token)).value];
    assert Matches(found, IdIs(found.id));
  }

  /** Nothing in the application calls the porter's exit authorization, so the gate never
      opens; the walk-in record is created closed, and every kiosk exit scan is denied. */
  lemma KioskExitAlwaysDenied(vs: seq<Visit>, token: string, form: WalkinForm, now: nat)
    requires GateClosed(vs) && FindFirst(vs, QrIs(token)).Some?
    ensures GateClosed([WalkinVisit(form, now)] + vs)
    ensures CheckoutDecision(Kiosk, vs, vs[FindFirst(vs, QrIs(token)).value].id) == Denied
  {
    var found := vs[FindFirst(vs, QrIs(token)).value];
    assert Matches(found, IdIs(found.id));
    var withWalkin := [WalkinVisit(form, now)] + vs;
    forall k | 1 <= k < |withWalkin| ensures !withWalkin[k].exitPermission {
      assert withWalkin[k] == vs[k - 1];
    }
  }
}
