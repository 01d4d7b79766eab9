# LytiksControl visitor access — a Dafny model

LytiksControl is a single-page visitor-management application for a guarded site. Visitors
request a visit through a public portal. Staff approve or reject requests on an internal
dashboard. An approved visit receives a QR token and a rotating six-digit validation code
that is good for two uses. A reception kiosk scans the token, collects an identity photo, an
asset photo and a signature, and checks the visitor in. On the way out, the porter must
authorize the exit before the kiosk lets the visitor check out. In an emergency, a marshal
works through the roster of everyone on site.

This project models the business core of that application and proves what it promises:

- `visit.dfy` (`VisitModel`): the visit record, its value types, and `Filter`, the
  order-keeping `list.filter` the views and the toast stack use.
- `codes.dfy` (`Codes`): code generation, decimal rendering and QR tokens.
- `store.dfy` (`Store`): the application state of `src/App.jsx`, as a class `App` with
  sequence fields. Each `prev.map(...)` update of the visit list is a list transform with its
  own contract.
- `tablet.dfy` (`TabletMode`): the kiosk wizard, as a class `Tablet` whose methods call the
  store.
- `evacuation.dfy` (`Evacuation`): roster, counters, search, tabs, the "unaccounted first"
  ordering, and the `Board` class that holds the roster board's state.
- `dashboard.dfy` (`Dashboard`): role scoping, counters, risk signals and the actions each
  table row offers.
- `portal.dfy` (`Portal`): the two-step request form, its required-field checks, and the
  six-character code box.

JavaScript semantics that matter are written out:

- `||` against `??`: `""` and `0` are falsy.
- `undefined - 1` is NaN, modelled as `Uses.NotANumber`.
- `find` returns the first match.
- `Array.prototype.sort` is stable.
- Reading a field of `undefined` throws, modelled as `CheckoutResult.Crashed`.

The clock is a `now: nat` argument in milliseconds. `Math.random()` is a nondeterministic
choice of an integer in [100000, 999999]. Several defects of the code are modelled as
written and shown by lemmas:

- A walk-in's counter becomes NaN (`WalkinFinishYieldsNaN`).
- Any status change is accepted (`AnyTransitionAccepted`).
- Checkout never looks at the status (`CheckoutGuardIsAsymmetric`, `HandleCheckout`).
- Code lookup ignores expiry and remaining uses (`CodeLookupIgnoresExpiryAndUses`).
- A checked-out visit re-enters (`CheckedOutVisitReenters`).
- The report action is never offered (`PdfNeverOfferedOnNewRecords`, `PdfNeverOffered`).
- The portal's code box never clears its error (`PublicPortal.TypeCode`).
- Nothing calls the porter's exit authorization, so every kiosk exit scan is denied
  (`GateOpensOnlyByAssetValidation`, `KioskExitAlwaysDenied`).
- The portal's "Continuar" button is disabled while the name is empty, so the name's own
  error message can never appear (`PublicPortal.ContinueFromStep1`).

## Model

| member | source | states |
|---|---|---|
| `Codes.NatToString` | src/App.jsx:18 | `toString()` of a non-negative integer is a non-empty string of decimal digits |
| `Codes.DecimalRoundTrip` | src/App.jsx:18 | reading the decimal rendering back gives the number itself, so rendering loses nothing |
| `Codes.NatToStringInjective` | src/App.jsx:54 | different instants render as different strings |
| `Codes.CodeOfDraw` | src/App.jsx:18 | every integer the generator can draw renders as exactly six digits whose value is the draw |
| `Codes.GenerateCode` | src/App.jsx:18 | a generated code is six decimal digits with value in [100000, 999999] |
| `Codes.DrawCodes` | src/App.jsx:64-73 | one fresh six-digit code per record of a list, as a list-wide `map` draws them |
| `Codes.QrToken` | src/App.jsx:111 | a token is `QR-`, the visit id, a dash, then the decimal digits of the instant |
| `Codes.QrTokenInjective` | src/App.jsx:111 | two `QR-<id>-<now>` tokens are equal only for the same visit id and the same instant |
| `Store.FindFirst` | src/App.jsx:159 | `find`: the index of the first record matching the query, and "none" exactly when no record matches |
| `Store.InitialVisits` | src/App.jsx:12-15 | two records: v1 pending with assets and no token, code, expiry or counter; v2 approved with token `QR-V2-SECURE` but no code, expiry or counter; neither has its exit gate open |
| `Store.SeedRecord` | src/App.jsx:47-58 | a record that is not approved is untouched; an approved one keeps status and every other field, keeps each credential it already has, and gets the draw as its missing code, now + 30000 as its missing expiry, 2 as its missing uses and `QR-<id>-<now>` as its missing token, so it holds all four |
| `Store.SeedAll` | src/App.jsx:45-59 | seeding changes only approved records and only their credential fields; each credential that was there stays, each missing one gets its value (the record's draw, now + 30000, 2 uses, `QR-<id>-<now>`); complete records are unchanged |
| `Store.SeedIdempotent` | src/App.jsx:45-59 | a second seeding, with any draws at any instant, changes nothing |
| `Store.RotationEligible` | src/App.jsx:65 | a record rotates exactly when it is approved and its counter is absent or a positive number (NaN never rotates) |
| `Store.RotateAll` | src/App.jsx:64-73 | the tick changes only code and expiry (to now + 30000), only on approved records with uses left (absent counts as 2); every other record is untouched |
| `Store.SetStatusAll` | src/App.jsx:105-118 | only the records with the id change; they take the target status; on approval they get token `QR-<id>-<now>`, a fresh code, expiry now + 30000 and two uses; for any other target the credentials keep their values |
| `Store.CheckInAll` | src/App.jsx:124-133 | only the records with the id change: status checked-in, the check-in instant, the evidence bundle, and a closed exit gate |
| `Store.DecrementAll` | src/App.jsx:138-145 | only `usesRemaining` of the records with the id changes: n > 0 becomes n - 1, 0 stays, absent becomes NaN |
| `Store.AuthorizeExitAll` | src/App.jsx:148-151 | only the records with the id change: gate open, validation instant and guardian recorded |
| `Store.CheckOutAll` | src/App.jsx:169 | only the records with the id change: status checked-out and the check-out instant, whatever the prior status |
| `Store.JudicialAll` | src/App.jsx:175-176 | only the records with the id change: the judicial result is attached and the status is untouched |
| `Store.RotationTouchesOnlyCode` | src/App.jsx:64-73 | rotation keeps token, uses, status and id; exhausted and non-approved records are unchanged |
| `Store.ApprovalIssuesFreshCredential` | src/App.jsx:106-115 | an approved record holds a live six-digit code, two uses and a token that no other (id, instant) issuance produces |
| `Store.RejectionIssuesNothing` | src/App.jsx:106-118 | a rejection keeps all four credential fields as they were |
| `Store.AnyTransitionAccepted` | src/App.jsx:105-118 | a checked-out visit can be approved again and becomes eligible for rotation |
| `Store.CheckInClosesExitGate` | src/App.jsx:124-133 | check-in closes the exit gate whatever its prior value and keeps the credentials |
| `Store.DecrementKeepsBounds` | src/App.jsx:138-145 | a counter in {0, 1, 2} stays in {0, 1, 2}; at 0 decrementing is a no-op |
| `Store.DecrementOfMissingIsNaN` | src/App.jsx:140-141 | an absent counter passes the `?? 2` guard and becomes NaN, outside {0, 1, 2} |
| `Store.ExhaustedCredentialGoesStale` | src/App.jsx:64-73 | approve, two uses, tick: the counter goes 2, 1, 0 and the tick leaves the exhausted record with its old code |
| `Store.WithoutId` | src/App.jsx:84 | the dismissal timer removes exactly the toasts with its id, and the rest keep their multiplicity |
| `Store.WithoutIdKeepsOrder` | src/App.jsx:84 | dismissal keeps the stack's order: removing from a concatenation concatenates the removals, and one toast goes exactly when it carries the id |
| `Store.DemoAccountRole` | src/App.jsx:256-260 | each of the three demo accounts logs in with exactly its own role (kiosk, porteria, admin), and every other pair of inputs finds no account |
| `Store.RequestedVisit` | src/App.jsx:91-99 | the request has id `v<now>`, is pending for host h1 (Ana López), carries every field of the form (name, e-mail, company, document, phone, residence, passport, type, motive, date, time), has no assets because the form has no asset brand, and holds no token, code, expiry or counter, no check-in and no open exit gate |
| `Store.CheckoutDecision` | src/App.jsx:157-167 | only the kiosk is held back, exactly by a closed gate on the first record with the id; a missing id crashes the kiosk and nobody else |
| `Store.App.constructor` | src/App.jsx:21-41 | the state on mount: admin role, logged out, the two initial visits, empty log and toasts, the initial portal form at step 1 |
| `Store.App.AddNotification` | src/App.jsx:81-85 | appends one toast stamped with the instant |
| `Store.App.DismissNotification` | src/App.jsx:84 | removes the toasts of that id |
| `Store.App.ClearNotifications` | src/App.jsx:378 | empties the toasts |
| `Store.App.AddLog` | src/App.jsx:87-89 | prepends one entry, so the log reads newest first |
| `Store.App.SeedCredentials` | src/App.jsx:45-59 | the visit list becomes `SeedAll` of the old list for some six-digit draws |
| `Store.App.RotationTick` | src/App.jsx:61-77 | the visit list becomes `RotateAll` of the old list for some six-digit draws; the rotation instant is recorded |
| `Store.App.CreateVisitRequest` | src/App.jsx:91-103 | prepends exactly one request, one log entry and one toast |
| `Store.App.UpdateVisitStatus` | src/App.jsx:105-121 | applies `SetStatusAll` for some six-digit draws, then prepends one log entry and appends one toast whatever the target |
| `Store.App.HandleCheckIn` | src/App.jsx:124-136 | applies `CheckInAll`, one log entry by "Kiosko", one toast |
| `Store.App.DecrementUse` | src/App.jsx:138-145 | applies `DecrementAll`; no log, no toast |
| `Store.App.HandleAssetValidation` | src/App.jsx:148-154 | applies `AuthorizeExitAll`, one log entry by the guardian, one toast |
| `Store.App.HandleCheckout` | src/App.jsx:157-173 | on denial, visits and log are untouched and one critical toast is raised; on release, `CheckOutAll`, one log entry by the role, one toast; on a crash, nothing changes |
| `Store.App.MarkJudicialResult` | src/App.jsx:175-179 | applies `JudicialAll`, one log entry, one toast |
| `Store.App.HandleLogout` | src/App.jsx:262-269 | logged out, role back to admin, one toast |
| `Store.App.HandleLogin` | src/App.jsx:271-279 | empty inputs give a warning, unknown credentials a critical toast, both with no change; a demo account logs in with its role and one log entry |
| `Store.App.HandleCodeValidate` | src/App.jsx:282-290 | the first approved visit holding the typed code is shown and the error cleared; a miss sets "Código no válido." and keeps the previous result |
| `Store.CodeLookupIgnoresExpiryAndUses` | src/App.jsx:282-290 | an approved visit whose code has already expired and whose uses are exhausted is still the one the code finds |
| `Store.CheckoutGuardIsAsymmetric` | src/App.jsx:164-167 | with the gate closed the kiosk is denied and every other role is released |
| `Store.GateOpensOnlyByAssetValidation` | src/App.jsx:148-151 | the initial records, a new request, seeding, rotation, any status change, check-in, decrement, checkout and the judicial mark all leave a closed exit gate closed |
| `TabletMode.ActiveVisits` | src/views/TabletMode.jsx:32-34 | the arrivals list holds exactly the approved visits with uses left (absent counts as 0) and a code |
| `TabletMode.Arriving` | src/views/TabletMode.jsx:32-34 | a visit is arriving exactly when it is approved, holds a positive numeric counter (an absent one reads as 0) and a non-empty code |
| `TabletMode.EntryStep` | src/views/TabletMode.jsx:65-73 | a scanned visit already checked in goes back home; any other goes to the identity photo |
| `TabletMode.StepAfterPhotoId` | src/views/TabletMode.jsx:252 | the asset photo comes next exactly when the visit declared assets, otherwise the signature |
| `TabletMode.WalkinVisit` | src/views/TabletMode.jsx:137-145 | a walk-in has the id `w-<now>`, type "Visitante" and no host id; it is approved at once, has no assets, falls back to "Particular" and "Recepción", and has no credential, no document number and a closed gate |
| `TabletMode.Tablet.constructor` | src/views/TabletMode.jsx:12-19 | the kiosk starts at home, entry flow, nothing scanned, no evidence |
| `TabletMode.Tablet.StartScan` | src/views/TabletMode.jsx:190-196 | entry or exit flow chosen, scanner shown |
| `TabletMode.Tablet.OpenWalkin` | src/views/TabletMode.jsx:204 | the walk-in form is shown |
| `TabletMode.Tablet.BackToHome` | src/views/TabletMode.jsx:311 | back to the home screen |
| `TabletMode.Tablet.Done` | src/views/TabletMode.jsx:387 | back home with the scanned visit forgotten |
| `TabletMode.Tablet.ScanFrame` | src/views/TabletMode.jsx:56-89 | no match changes nothing; a match in the entry flow routes by `EntryStep`, resets the evidence or warns "already in"; a match in the exit flow never crashes, and on release checks out with one log entry by the role and one toast, on denial changes nothing but one critical toast and goes home |
| `TabletMode.Tablet.CapturePhoto` | src/views/TabletMode.jsx:94-97 | stores the image in its slot of the evidence, the other slots unchanged |
| `TabletMode.Tablet.RetakePhoto` | src/views/TabletMode.jsx:251 | clears that slot of the evidence |
| `TabletMode.Tablet.ContinueFromPhotoId` | src/views/TabletMode.jsx:252 | on the identity-photo screen with a photo taken, a visit is always in hand and the wizard moves on by `StepAfterPhotoId` |
| `TabletMode.Tablet.ContinueFromPhotoAsset` | src/views/TabletMode.jsx:277 | the signature step follows the asset photo |
| `TabletMode.Tablet.SaveSignatureAndFinish` | src/views/TabletMode.jsx:103-131 | no pad: nothing; empty pad: a warning; no scanned id: a critical toast and home; otherwise check-in with the evidence and the signature, then exactly one use consumed, then the success screen |
| `TabletMode.Tablet.HandleWalkinSubmit` | src/views/TabletMode.jsx:133-151 | nothing without name and document; otherwise the walk-in is prepended and the wizard starts on it with empty evidence |
| `TabletMode.FinishConsumesOneUse` | src/views/TabletMode.jsx:123-124 | finishing on a visit with n > 0 uses checks it in with the gate closed and leaves n - 1 uses |
| `TabletMode.WalkinFinishYieldsNaN` | src/views/TabletMode.jsx:133-151 | a walk-in that finishes the wizard ends checked in with a NaN counter |
| `TabletMode.WalkinRotatedButNotListed` | src/views/TabletMode.jsx:32-34 | a walk-in is never on the arrivals list, yet the next tick gives it a code |
| `TabletMode.CheckedOutVisitReenters` | src/views/TabletMode.jsx:67-72 | a checked-out visit whose token scans is sent into the entry wizard again |
| `TabletMode.ExitScanNeverCrashes` | src/views/TabletMode.jsx:74-83 | the exit flow never reaches the checkout crash; it is released exactly when the gate is open |
| `TabletMode.KioskExitAlwaysDenied` | src/views/TabletMode.jsx:74-83 | while no exit gate is open (nothing calls the porter's authorization) a walk-in keeps it so, and every exit scan at the kiosk is denied |
| `Evacuation.Roster` | src/views/EvacuationView.jsx:12-14 | the roster is exactly the checked-in visits, drawn from the store |
| `Evacuation.RosterKeepsStoreOrder` | src/views/EvacuationView.jsx:12-14 | the roster keeps store order: the roster of a concatenation is the concatenation of the rosters, and one record is on it exactly when checked in |
| `Evacuation.Toggled` | src/views/EvacuationView.jsx:45-47 | the toggled id flips and every other id keeps its safety |
| `Evacuation.ToggleTwiceRestores` | src/views/EvacuationView.jsx:45-47 | toggling the same id twice restores every id's safety |
| `Evacuation.ToggleMovesSafeCountByOne` | src/views/EvacuationView.jsx:19 | a toggle moves the safe count by exactly one, toward the new value |
| `Evacuation.RosterStats` | src/views/EvacuationView.jsx:17-23 | total is the roster size, safe counts every id marked safe, missing + safe = total, progress is 0 for an empty roster and safe/total × 100 otherwise |
| `Evacuation.MissingNonNegative` | src/views/EvacuationView.jsx:17-20 | while every id marked safe is a roster row's id, `missing` lies between 0 and the roster size |
| `Evacuation.ToggleKeepsSafeWithinRoster` | src/views/EvacuationView.jsx:170-175 | toggling a displayed row's id keeps every id marked safe on the roster |
| `Evacuation.MissingCanBeNegative` | src/views/EvacuationView.jsx:19-20 | `safe` counts ids outside the roster, so a map naming an off-roster id as safe gives `missing` = -1 |
| `Evacuation.Lower` | src/views/EvacuationView.jsx:30 | each ASCII capital becomes its lower-case letter, every other character stays, the length is kept and no capital is left |
| `Evacuation.LowerIdempotent` | src/views/EvacuationView.jsx:30 | lower-casing twice is lower-casing once |
| `Evacuation.IncludesAt` | src/views/EvacuationView.jsx:31-32 | `includes` holds exactly when the term occurs at some position |
| `Evacuation.Kept` | src/views/EvacuationView.jsx:28-37 | with a term, a row is kept exactly when its lower-cased name or company contains the lower-cased term at some position; without one, 'all' keeps every row and 'missing'/'safe' exactly the unaccounted/accounted ones |
| `Evacuation.KeptIgnoresTermCase` | src/views/EvacuationView.jsx:29-33 | two search terms that lower-case alike keep the same rows |
| `Evacuation.Selected` | src/views/EvacuationView.jsx:28-37 | the selection holds exactly the roster rows the search or the tab keeps, none more often than on the roster |
| `Evacuation.SelectedKeepsRosterOrder` | src/views/EvacuationView.jsx:28-37 | the selection keeps roster order: the selection of a concatenation is the concatenation of the selections, and one row is selected exactly when kept |
| `Evacuation.WithSafety` | src/views/EvacuationView.jsx:39-41 | one safety group holds exactly the rows of that safety |
| `Evacuation.UnaccountedFirst` | src/views/EvacuationView.jsx:38-42 | the sort is a permutation of its input |
| `Evacuation.UnaccountedFirstIsStableSort` | src/views/EvacuationView.jsx:38-42 | the sorted list is a permutation of its input with every unaccounted row before every accounted row, and each group keeps its order |
| `Evacuation.DisplayedList` | src/views/EvacuationView.jsx:26-43 | the displayed list holds exactly the kept roster rows, none more often than on the roster |
| `Evacuation.SelectionCommutesWithSafety` | src/views/EvacuationView.jsx:28-42 | each safety group of the selection is the selection of that group of the roster |
| `Evacuation.DisplayedListInRosterOrder` | src/views/EvacuationView.jsx:26-43 | the marshal sees the selected unaccounted rows in roster order, then the selected accounted rows in roster order |
| `Evacuation.DisplayedWithinRoster` | src/views/EvacuationView.jsx:26-43 | the displayed list is drawn from the roster, with no row more often than on it |
| `Evacuation.SearchOverridesTab` | src/views/EvacuationView.jsx:29-33 | with a non-empty search term the tab makes no difference |
| `Evacuation.SelectedIgnoresTab` | src/views/EvacuationView.jsx:29-33 | with a non-empty term the selection is the same for every tab |
| `Evacuation.TabsSplitRoster` | src/views/EvacuationView.jsx:34-36 | without a term, 'missing' shows exactly the unaccounted roster rows, 'safe' exactly the accounted ones, 'all' the whole roster |
| `Evacuation.Board.constructor` | src/views/EvacuationView.jsx:7-9 | nobody accounted for, 'missing' tab, empty search |
| `Evacuation.Board.ToggleSafety` | src/views/EvacuationView.jsx:45-47 | the accounted map becomes `Toggled` of the old one |
| `Evacuation.Board.SetFilter` | src/views/EvacuationView.jsx:8 | the chosen tab is stored |
| `Evacuation.Board.SetSearchTerm` | src/views/EvacuationView.jsx:9 | the search term is stored |
| `Dashboard.FilteredVisits` | src/views/InternalLayout.jsx:14-18 | a host sees exactly the visits of h1, reception exactly those dated 2025-11-26, every other role all visits unchanged |
| `Dashboard.FilteredVisitsKeepStoreOrder` | src/views/InternalLayout.jsx:14-18 | the role's view keeps store order: the view of a concatenation is the concatenation of the views, and one record is in it exactly when in scope |
| `Dashboard.CountWhere` | src/views/InternalLayout.jsx:29-30 | a filter count is at most the length, 0 exactly when nothing matches, the length exactly when everything matches |
| `Dashboard.CountWhereAdds` | src/views/InternalLayout.jsx:29-30 | the count adds over concatenation and counts one record exactly when it matches, so it is the number of matching records |
| `Dashboard.StatusCountsPartition` | src/views/InternalLayout.jsx:27-31 | the five status counts add up to the number of visits |
| `Dashboard.DashboardCounters` | src/views/InternalLayout.jsx:27-31 | the counters run over the role's view: total its size, pending its pending count, on-site its checked-in count; pending + on-site ≤ total; pending is 0 exactly when no visit in view is pending |
| `Dashboard.RiskStats` | src/views/InternalLayout.jsx:20-25 | over the whole store, `expiring` is the number of overdue requests and `reused` the number of counters exactly 0; overdue requests are at most the pending ones; `reused` is 0 exactly when no counter is exactly 0 |
| `Dashboard.OverdueWithinPending` | src/views/InternalLayout.jsx:22 | every overdue request is a pending one |
| `Dashboard.Overdue` | src/views/InternalLayout.jsx:22 | only a pending request can be overdue; an unparseable date never is; a pending request with a parsed date is overdue exactly when that date is before now |
| `Dashboard.Exhausted` | src/views/InternalLayout.jsx:23 | a record counts as reused exactly when its counter is the number 0; an absent counter or NaN never does |
| `Dashboard.RiskSeesBeyondScope` | src/views/InternalLayout.jsx:20-25 | the risk counter a host sees counts a request outside the host's own view |
| `Dashboard.ReusedCountsLastLegitimateUse` | src/views/InternalLayout.jsx:23 | a visit whose last use is consumed normally turns the "reuse attempts" signal on |
| `Dashboard.NaNNeverCountsAsReused` | src/views/InternalLayout.jsx:23 | a walk-in's NaN counter never counts as reused |
| `Dashboard.RowActions` | src/views/InternalLayout.jsx:213-225 | approve and reject exactly on pending rows; the check-in hint exactly on approved rows seen by reception; the PDF action exactly when `docImage` or `signatureData` is non-empty |
| `Dashboard.DecisionOfferedIffPending` | src/views/InternalLayout.jsx:214-218 | approve and reject are offered exactly on pending rows, for every role |
| `Dashboard.ApprovedRowOffersNoDecision` | src/views/InternalLayout.jsx:214-221 | after approval from the table no decision is offered; reception gets the check-in hint |
| `Dashboard.CheckInNeverEnablesPdf` | src/views/InternalLayout.jsx:223-225 | kiosk check-in never changes whether the report action is offered |
| `Dashboard.PdfNeverOfferedOnNewRecords` | src/views/InternalLayout.jsx:223-225 | no initial record and no new request offers the report action |
| `Dashboard.PdfNeverOffered` | src/views/InternalLayout.jsx:223-225 | no store operation (seeding, rotation, status change, check-in, decrement, exit authorization, checkout, judicial mark) makes a row offer the report action |
| `Dashboard.RecentLogs` | src/views/InternalLayout.jsx:118 | the first min(|logs|, 6) entries, the newest, all of them when there are at most six |
| `Dashboard.NewestLogShownFirst` | src/views/InternalLayout.jsx:118 | a fresh entry heads the recent list and the oldest of the six drops off |
| `Dashboard.SidebarTabs` | src/views/InternalLayout.jsx:50-57 | every role gets the overview and the visits; the audit log and the settings appear exactly for the administrator |
| `Dashboard.PanelFor` | src/views/InternalLayout.jsx:104-263 | the audit-log tab shows the log exactly for the administrator and a blank panel otherwise; the settings tab shows the settings with no role check |
| `Dashboard.OnlyAdminReachesAuditAndSettings` | src/views/InternalLayout.jsx:50-57 | tabs from one's own sidebar reach the audit log and the settings only for the administrator |
| `Portal.WithField` | src/views/PublicPortal.jsx:64-66 | an input's change sets its field and leaves every other field as it was |
| `Portal.Step1Errors` | src/views/PublicPortal.jsx:24-27 | a message exactly for each empty one of name, e-mail and company, and for no other field |
| `Portal.Step1PassesIffRequiredFilled` | src/views/PublicPortal.jsx:28-29 | the error map is empty exactly when name, e-mail and company are filled |
| `Portal.SubmitErrors` | src/views/PublicPortal.jsx:35 | "Requerido" on exactly the missing ones of date and time; other messages kept |
| `Portal.ClearedFormLosesResidenceDefault` | src/views/PublicPortal.jsx:107 | a new request does not restore the initial form: only the residence default is lost |
| `Portal.CodeBoxValue` | src/views/PublicPortal.jsx:121 | the box holds at most six characters, a prefix of what was entered, all of it when short enough |
| `Portal.ValidateEnabled` | src/views/PublicPortal.jsx:122 | Validate is enabled exactly when the code has at least six characters |
| `Portal.ValidateEnabledIffBoxFull` | src/views/PublicPortal.jsx:122 | Validate is enabled exactly when the box is full, i.e. when at least six characters were entered |
| `Portal.PublicPortal.constructor` | src/views/PublicPortal.jsx:21 | no error messages |
| `Portal.PublicPortal.EditField` | src/views/PublicPortal.jsx:64-66 | the form becomes `WithField` of the old form |
| `Portal.PublicPortal.ValidateStep1` | src/views/PublicPortal.jsx:23-30 | stores `Step1Errors` and returns true exactly when it is empty, i.e. when the three fields are filled |
| `Portal.PublicPortal.ContinueFromStep1` | src/views/PublicPortal.jsx:67 | with an empty name the button is disabled and nothing changes; otherwise the errors become `Step1Errors` and step 2 follows exactly when there are none; the name's own message never appears |
| `Portal.PublicPortal.BackToStep1` | src/views/PublicPortal.jsx:90 | back to step 1 |
| `Portal.PublicPortal.HandleSubmit` | src/views/PublicPortal.jsx:32-40 | a missing date or time marks only the missing ones and creates nothing; otherwise exactly one request, one log entry, one toast, and step 3; the name message is neither added nor removed |
| `Portal.PublicPortal.StartNewRequest` | src/views/PublicPortal.jsx:107 | step 1 with the cleared form |
| `Portal.PublicPortal.TypeCode` | src/views/PublicPortal.jsx:121 | the typed value, capped at six characters, is stored; the error message is left as it was |

## Left out

- No login path assigns the `sos`, `host` or `reception` role. `handleLogin` takes the role from
  the three demo accounts (src/App.jsx:255-259, 277); the direct buttons set `kiosk` or `visitor`,
  and the role picker's `loginRole` is never read. So the evacuation board (mounted only for
  `sos`, src/App.jsx:383) and the host and reception scopes of `FilteredVisits` cannot be reached
  in the program as written; the model states them as the views define them.
- The portal form (`portalFormData`, src/App.jsx:35-38) has no asset-brand field and the portal
  has no input for one, so `hasAssets: !!data.assetBrand` is always false: a portal request never
  declares assets. `PortalForm` has exactly the source's keys.
- Rendering, styling and the presentational components are not modelled: the JSX, the themes,
  and the buttons, cards, badges, top bar and notification panel.
- The login screen (`src/views/LoginScreen.jsx`) is not part of this model. `HandleLogin` takes
  the two form inputs as arguments. The resets of `loginMode`, `loginEmail` and `loginPass` on
  logout are form state of that screen and are not modelled.
- The camera, the jsQR decoder, `requestAnimationFrame`, the webcam screenshots and the
  signature canvas are not modelled. A decoded payload, a captured image and the pad's state
  (`Pad`) arrive as arguments, so the pad's "Borrar" button is outside the model.
- `ScanFrame` reads the current state. The source's animation loop can run with an older
  rendering's `visits`, `flowType` and `view`; that staleness is not modelled.
- The `catch` branch of `saveSignatureAndFinish` is not modelled: no modelled step throws
  there.
- PDF export through jsPDF (`generatePDF`, src/App.jsx:182-245) is not modelled. Only whether the
  action is offered is modelled.
- Timers are not modelled as concurrency. The 30-second interval is `RotationTick`, the
  4-second dismissal is `DismissNotification`, and the countdown display is left out.
- Every handler takes one `now`. Where the source calls `Date.now()` twice in one update,
  both reads are taken to give the same instant.
- Locale-formatted times (`toLocaleTimeString`, `toLocaleString`, `toISOString`) are integer
  instants.
- `new Date(v.date)` parsing is the `dateInstant` argument of `Dashboard.RiskStats`.
- The evacuation progress is an exact real, not a float. Lower-casing covers only the ASCII
  letters, with no Unicode case folding.
- The kiosk's tap-to-reveal of an arriving visit's code (`revealedCodeId`) only changes what
  is shown, and is not modelled.
- The walk-in form's field inputs are not modelled. `HandleWalkinSubmit` takes the form as an
  argument.
- The dashboard's `activeTab` and notification-panel flags are not state here. `PanelFor`
  takes the tab as an argument.
- The dashboard's search box, quick filters, "Nueva Visita" alert and settings switches have no
  behaviour in the source.
- `handleAssetValidation` and `markJudicialResult` are passed to the dashboard, which never
  reads them, so no view calls them. They are modelled as `App` methods with no caller in the
  model. `handleCheckout` is called by the kiosk's exit scan (`Tablet.ScanFrame`). Because nothing
  opens the exit gate, every kiosk exit scan is denied (`KioskExitAlwaysDenied`).
- The dashboard's approve and reject buttons call `updateVisitStatus` with the role name as the
  actor. This is `App.UpdateVisitStatus` with `RoleName(role)`; no separate member models it.
- Step 2's date and time inputs carry the browser's `required` check, which blocks the submit
  before `handleSubmit` runs. That browser validation is not modelled: `HandleSubmit` also covers
  the missing date or time branch that the source writes.
- The portal's "Persona a visitar" field is fixed and disabled. The `errors.type` and
  `errors.motive` slots are read but never set, and the model has no message for them.
