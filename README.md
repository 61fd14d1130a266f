# Lost-and-found item lifecycle, in Dafny

This project models the core of a lost-and-found web application for police
stations. Citizens declare lost or found items. Other citizens report finding
a declared item (`je_le_trouve`) or claim it as theirs (`ca_m_appartient`).
A restitution is planned (`planifier_restitution`) and marked done
(`marquer_restitue`); neither view checks who asks. Officers cancel it
(`annuler_restitution`) or delete it (`supprimer_restitution`). A citizen can reopen a returned item
(`reclamer_objet`).

Every transition moves the item through the states lost, found, claimed,
awaiting return and returned. Saving a restitution always sets its item to
returned (`Restitution.save`).

The model consists of the following modules:

- `Objets` (objets.dfy)
  - the records `Objet`, `Declaration` and `Restitution`, and their `__str__` renderings;
  - the listing order of restitutions;
  - the `Restitution.save` cascade;
  - the class `Store`, which holds the tables as maps and is updated in place.
- `Users` (users.dfy): accounts, roles and their rendering.
- `Guards` (guards.dfy): the decorators `login_required`, `policier_required`,
  `admin_required` and the `is_admin` test.
- `Handlers` (handlers.dfy): the views as methods on a `Store`. Each returns
  `Done` or `Refused(reason)` and states the exact new tables. Every refusal
  leaves all tables unchanged. Every view keeps every item reference of a
  declaration or restitution resolvable, and keeps at most one restitution
  per (item, claimant) pair.
- `Dashboard` (dashboard.dfy):
  - the six-month window of the officer dashboard, as a loop proved against `MonthsBefore`;
  - the reversed chart lists of the administrator dashboard.
- `Home` (home.dfy): the home-page carousel, with 120-character description
  truncation and placeholder slides.
- `Notify` (notify.dfy): the recipient list of the planning notification and
  its de-duplication.
- `Scenarios` (scenarios.dfy): one item's full lifecycle, request by
  request, and the repeated-report refusals, as verified concrete request sequences.

Two clocks become parameters. The officer dashboard reads `timezone.now()`,
and its month enters `LastSixMonths` as `(year, month)` integers. A new
restitution's `auto_now_add` columns take the local date and time
(`datetime.date.today()`, `datetime.datetime.now().time()`); these enter
`PlanifierRestitution` as `today` and `now`.

## Model

| member | source | states |
|---|---|---|
| Users.UtilisateurStr | backend/users/models.py:24-25 | an account renders as its username followed by " (<role value>)" |
| Objets.GetEtatDisplay | backend/objets/models.py:9-18 | the label shown for a state is its choice label when the stored value is one of the three choices, and the raw stored value otherwise |
| Objets.EtatValue | backend/objets/models.py:9-16 | the stored string of a state is one of the declared choices exactly for lost, found and returned |
| Objets.NewObjet | backend/objets/models.py:6-18 | a new item stores state "perdu" by default, no unique code, and the given name and description |
| Objets.ObjetStr | backend/objets/models.py:27-28 | an item renders as its name followed by " (<state label>)" |
| Objets.DeclarationStr | backend/objets/models.py:85-86 | a declaration renders as "Déclaration - " followed by its item's name, or by "Objet inconnu" when it has no item |
| Objets.RestitutionStr | backend/objets/models.py:144-145 | a restitution renders as "Restitution de ", the item's rendering or "None", " à ", then the citizen's rendering or "None" |
| Objets.ObjetStrDistinguishesNames | backend/objets/models.py:27-28 | two items in the same state render identically exactly when their names are equal |
| Objets.DeclarationStrDistinguishesNames | backend/objets/models.py:85-86 | two declarations with items render identically iff the names are equal; a declaration without an item renders like one whose item is named "Objet inconnu", and like no other |
| Objets.EtatValueInjective | backend/objets/models.py:9-16 | distinct states are stored as distinct strings |
| Objets.ListedBefore | backend/objets/models.py:150 | an earlier date is never listed first, nor an earlier time on the same date; entries at the same moment may come in either order |
| Objets.ListedBeforeTotalPreorder | backend/objets/models.py:150 | the listing order (date descending, then time descending) is total and transitive |
| Objets.NeighboursInOrder | backend/objets/models.py:150 | a listing whose adjacent entries are in order has every earlier entry at or above every later one |
| Objets.FirstDeclaration | frontend/views.py:794 | `filter(objet=o).first()` yields nothing iff no declaration has item `o` (absent matches absent); otherwise it yields the matching declaration with the smallest key |
| Objets.SaveCascade | backend/objets/models.py:137-142 | after a save, the restitution's item is in the state stored as "restitué"; with no item, no item changes; other items never change |
| Objets.SaveCascadeIgnoresStatut | backend/objets/models.py:137-141 | the cascade is the same whatever the restitution's status |
| Objets.WriteKeepsUniqueClaims | frontend/views.py:661-671 | rewriting a restitution without changing its pair, or inserting an unrecorded pair, keeps pairs unique |
| Objets.DeleteKeepsUniqueClaims | frontend/views.py:378-385 | deleting a restitution keeps pairs unique |
| Objets.Store.constructor | backend/objets/models.py:6-150 | a store starts from any tables whose item references resolve |
| Objets.Store.SaveRestitution | backend/objets/models.py:137-142 | `Restitution.save`: the item is set to returned first, then the row is written, under the next key when new; item references stay resolvable |
| Guards.LoginRequired | frontend/views.py:1143-1144 | granted exactly for authenticated requests; others go to the login page |
| Guards.PolicierRequired | frontend/views.py:38-47 | anonymous requests go to the login page; officers are granted; every other authenticated user goes to the home page (each an iff) |
| Guards.AdminRequired | frontend/views.py:50-59 | anonymous requests go to the login page; administrators are granted; every other authenticated user goes to the home page (each an iff) |
| Guards.AdminTest | frontend/views.py:1103-1104 | `login_required` plus `user_passes_test(is_admin)`: granted iff an authenticated administrator; any failure goes to the login page |
| Guards.RoleGuardsExclusive | frontend/views.py:38-59 | no request passes both role decorators |
| Handlers.JeLeTrouve | frontend/views.py:1143-1169 | a repeated report is refused and changes nothing. On success the user joins `trouve_par`. A lost item becomes claimed, and the user becomes claimant if nobody had claimed. Any other state is kept. A declaration without an item is rolled back |
| Handlers.CaMAppartient | frontend/views.py:1199-1224 | refused with no change when the user is the declarant, has already claimed, or the item is neither found nor claimed. On success the user joins `reclame_par` and the item is claimed |
| Handlers.ReclamerObjet | frontend/views.py:1403-1416 | only the restitution's own citizen, and only once the item is returned: the item goes back to claimed. Otherwise refused with no change |
| Handlers.PlannedClaimant | frontend/views.py:645-651 | the claimant is the declarant when the initial state is lost, otherwise the posted claimant |
| Handlers.PlannedFinder | frontend/views.py:645-651 | the finder is the posted finder when the initial state is lost, otherwise the declarant |
| Handlers.DeclarantTakesOneRole | frontend/views.py:645-651 | the declarant is always the claimant or the finder, and the other role is the posted one |
| Handlers.PlanifierRestitution | frontend/views.py:613-676 | no access check: any requester's request is handled, and an anonymous one fails only when a restitution must be created. Refused with no change on missing date/time/station/finder/claimant. The claimant is the declarant of a lost item, and the finder the declarant of a found one. Get-or-create leaves exactly one restitution per (item, claimant); creating one for a claimant that names no account fails and changes nothing. Once the form is complete, every refusal is a server error. A new one is saved through the cascade and returns the item. Only a claimed item then moves to awaiting return |
| Handlers.WriteKeepsUniqueClaimsIfUnique | frontend/views.py:661-671 | get-or-create's insertion of an unrecorded pair keeps pairs unique |
| Handlers.MarquerRestitue | frontend/views.py:728-737 | no access check: for any existing restitution, the status becomes done, the row is saved through the cascade, and its item is returned |
| Handlers.AnnulerRestitution | frontend/views.py:785-813 | officers only. When a declaration of the item exists, the item takes the first one's initial state (lost if none) and the restitution is deleted. Otherwise nothing changes |
| Handlers.SupprimerRestitution | frontend/views.py:377-385 | officers only; only the planning officer deletes the restitution, anyone else changes nothing |
| Handlers.ChangerBannissement | frontend/views.py:1121-1136 | administrators only, and only for a citizen account: that account's ban flag becomes the requested value and nothing else changes; otherwise nothing changes |
| Dashboard.MonthsBefore | frontend/views.py:292 | the month `i` months back is a valid month whose index (12 per year) is exactly `i` below the given month's |
| Dashboard.MonthsBeforeZero | frontend/views.py:292 | going back zero months gives the current month |
| Dashboard.MonthsBeforeStep | frontend/views.py:291-294 | the month i months back is a valid month, followed by the month i-1 months back |
| Dashboard.LastSixMonths | frontend/views.py:287-294 | six (year, month) pairs of consecutive calendar months in chronological order, ending with the current month, each labelled with its abbreviation |
| Dashboard.Reversed | frontend/views.py:927-929 | `s[::-1]`: same length, element k is element len-1-k of the input |
| Dashboard.StateFlags | frontend/views.py:910-911 | one 0/1 flag per item, 1 exactly when the item is in the given state |
| Dashboard.AdminChart | frontend/views.py:907-929 | names and lost/found flags of the recent items, in reverse (chronological) order, each flag 1 iff the item is in that state |
| Home.SlideDescription | frontend/views.py:81 | empty iff the item has no description. Otherwise the first min(len, 120) characters followed by "...", which is the whole description plus "..." when it fits |
| Home.HomeSlides | frontend/views.py:77-106 | the placeholders iff there is no item. Otherwise one slide per lost-or-claimed item, then one per found item, each titled with the item's name, described by its truncated description, labelled with its state label and typed "perdu"/"reclame"/"trouve" by state |
| Notify.Dedup | frontend/views.py:689 | the same recipients, each once |
| Notify.PlanifierRecipients | frontend/views.py:679-689 | an address is notified iff it belongs to the finder found among the reporters, or to the claimant (the declarant of a lost item, else found among the claimants); no repeats, at most two |
| Notify.FoundItemDeclarantNotNotified | frontend/views.py:644-682 | for a found item whose declarant is not among the reporters, the declarant-as-finder is not notified; only a claimant can be |
| Scenarios.Found | frontend/views.py:1143-1165 | from the declared lost wallet, the finder's report succeeds: the wallet is claimed and the finder is both reporter and first claimant |
| Scenarios.RepeatedReports | frontend/views.py:1149-1206 | a second report by the same finder and a claim by the declarant are refused |
| Scenarios.Planned | frontend/views.py:613-676 | planning creates restitution 1 for the owner and the cascade returns the wallet at once, so it never awaits return |
| Scenarios.HandedOver | frontend/views.py:728-737 | marking restitution 1 done keeps the wallet returned |
| Scenarios.Reopened | frontend/views.py:1403-1416 | the owner reopens the returned wallet: claimed again, while its restitution stays done |
| Scenarios.Replanned | frontend/views.py:661-676 | planning again finds restitution 1 and the claimed wallet now awaits return; the posted date and time are not stored |
| Scenarios.Cancelled | frontend/views.py:785-813 | cancelling deletes restitution 1 and the wallet is lost again |
| Scenarios.UnknownClaimant | frontend/views.py:661-671 | planning a found wallet for a claimant id that names no account is refused, and the wallet and the restitutions stay as they were |

## Left out

- Email, PDF and QR output: `send_mail`, `EmailMessage` and weasyprint are side channels whose failures are swallowed. Notification is a no-op, except that `Notify` models who would be addressed.
- Templates, redirects, flash messages and URL routing. A redirect is the `Refused` reason, or `Done`.
- The GET branch of `planifier_restitution` only renders the form and changes nothing; only the form submission is modelled.
- ORM queries and the counts of `dashboard_policier`, `dashboard_admin`, `voir_stats` and `dashboard_citoyen`. The helpers take the already-fetched item lists, `[:6]`/`[:12]` limits included.
- `transaction.atomic` and concurrent requests: the model is sequential. The rollback of `je_le_trouve` on an error is modelled.
- Authentication and account forms, the admin create/modify/delete views, and random password generation.
- `maj_objet` writes any posted string into the item state, so there is no rule to state.
- Dashboard.LastSixMonths: `timezone.now()` and `relativedelta`'s day clamping are not modelled; the month comes in as `(year, month)`. Labels are the English `%b` abbreviations, while the real ones depend on the locale.
- Home.HomeSlides: the slide `url` is left out. `home` reads `obj.image`, which `Objet` does not declare.
- Notify.PlanifierRecipients: Python's `list(set(...))` order is arbitrary, so only membership and uniqueness are stated.
- Handlers.MarquerRestitue: after the save, the view reads `restitution.objet.declarations`, which the models do not declare. The resulting error comes after the write, so the change stands; the model reports `Done`.
- Handlers.PlanifierRestitution: the posted date and time are not stored. `date_restitution` and `heure_restitution` are `auto_now_add`, so a new row takes the clock's values (`today`, `now`).

## Notes on the source

- `EtatObjet` and `StatutRestitution` are imported from `backend/objets/models.py` by the views but not defined there. The five states and two statuses are taken from how the views use them. The stored strings for lost and returned follow the model's literals "perdu" and "restitué". Found is identified with the choice "retrouvé". "reclame" and "en_attente" are assumed and are not among `Objet.etat`'s choices, so their display label is the raw value. This is an open question in the source.
- `reclame_par` is declared as a single foreign key, but the views use it as a collection (`exists`, `add`, `filter`); the model follows the views. Likewise `Restitution.statut`, `Declaration.etat_initial` and `Utilisateur.est_banni` are used by the views but not declared in the models; the model gives each the field the views assume.
- The first claimant recorded is the *finder*, not the declarant: `je_le_trouve` adds the reporting user to `reclame_par` when it is empty.
- Creating a restitution in `planifier_restitution` runs `Restitution.save`, which returns the item immediately. The later test "if claimed, then awaiting return" therefore only fires when the restitution already existed.
- `marquer_restitue` has no decorator, so nothing restricts it to the planning officer.
- `planifier_restitution` has no decorator either. Any requester, anonymous included, can move a claimed item to awaiting return once its restitution exists. Any logged-in user can create a restitution, becoming its planning officer.
- Account keys are auto-incremented from 1, so the test `if not (trouveur_id and reclamant_id)` refuses only missing ids; the model's user keys are positive.
- `reclamer_objet` after `marquer_restitue` leaves a done restitution whose item is claimed again.
- For a found item, the finder passed to the notification is the declarant, but it is looked up among `trouve_par`, so the declarant is usually not notified.
