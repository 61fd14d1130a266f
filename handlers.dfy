/**
 * The item-lifecycle views of frontend/views.py. Each view checks its
 * guards, then changes the store in place, and reports whether it went
 * through. A refused request leaves every table as it was. Mail, PDF and
 * template output are not part of the model.
 */
module Handlers {
  import opened Wrappers
  import opened Users
  import opened Objets
  import opened Guards

  /** Why a request changed nothing. */
  datatype Reason =
    | NeedsLogin           // redirected to the login page
    | NeedsRole            // redirected to the home page by a role decorator
    | NotFound             // get_object_or_404
    | AlreadyReported      // "Vous avez déjà signalé cet objet"
    | OwnItem              // "Vous ne pouvez pas réclamer votre propre objet"
    | AlreadyClaimed       // "Vous avez déjà réclamé cet objet"
    | NotClaimable         // item neither found nor claimed
    | NotLinked            // declaration without an item
    | InvalidInitialState  // initial state neither lost nor found
    | MissingFields        // date, time or station missing
    | MissingParties       // finder or claimant missing
    | NotAuthorized        // not the restitution's officer / citizen
    | NotYetReturned       // "Cet objet n'est pas encore restitué"
    | NoDeclaration        // "Impossible de déterminer l'état initial"
    | Failed               // exception caught inside transaction.atomic, rolled back
    | ServerError          // uncaught exception before any write

  datatype Outcome = Done | Refused(reason: Reason)

  /** The refusal a decorator's redirect amounts to. */
  function Denied(a: Access): Reason {
    if a == ToLogin then NeedsLogin else NeedsRole
  }

  // ---------------------------------------------------------------------
  // Citizen actions
  // ---------------------------------------------------------------------

  /**
   * `je_le_trouve`: a citizen reports finding the declared item. A repeated
   * report is refused. Otherwise the citizen joins `trouvePar`; a lost item
   * becomes claimed, and the citizen becomes its claimant if nobody has
   * claimed it yet; an item in any other state keeps it.
   */
  method JeLeTrouve(s: Store, req: Requester, id: DeclarationId) returns (out: Outcome)
    requires s.Valid()
    modifies s
    ensures s.Valid()
    ensures old(UniqueClaims(s.restitutions)) ==> UniqueClaims(s.restitutions)
    ensures out.Refused? ==> s.Rows() == old(s.Rows())
    ensures req.Anonymous? ==> out == Refused(NeedsLogin)
    ensures req.Authenticated? && id !in old(s.declarations) ==> out == Refused(NotFound)
    ensures req.Authenticated? && id in old(s.declarations) && req.id in old(s.declarations)[id].trouvePar
            ==> out == Refused(AlreadyReported)
    ensures req.Authenticated? && id in old(s.declarations) && req.id !in old(s.declarations)[id].trouvePar
            && old(s.declarations)[id].objet.None?
            ==> out == Refused(Failed)
    ensures out == Done <==>
            && req.Authenticated? && id in old(s.declarations)
            && req.id !in old(s.declarations)[id].trouvePar
            && old(s.declarations)[id].objet.Some?
    ensures out == Done ==>
            && req.Authenticated? && id in old(s.declarations) && old(s.declarations)[id].objet.Some?
            && var d := old(s.declarations)[id];
               var o := d.objet.value;
               var before := old(s.objets)[o];
               s.Rows() == old(s.Rows()).(
                 declarations := old(s.declarations)[id := d.(
                   trouvePar := d.trouvePar + {req.id},
                   reclamePar := if before.etat == Perdu && d.reclamePar == {} then {req.id} else d.reclamePar)],
                 objets := old(s.objets)[o := before.(etat := if before.etat == Perdu then Reclame else before.etat)])
  {
    if req.Anonymous? {
      return Refused(NeedsLogin);
    }
    if id !in s.declarations {
      return Refused(NotFound);
    }
    var u := req.id;
    var d := s.declarations[id];
    if u in d.trouvePar {
      return Refused(AlreadyReported);
    }
    // transaction.atomic: the first write happens before the item is read
    var saved := s.declarations;
    s.declarations := s.declarations[id := d.(trouvePar := d.trouvePar + {u})];
    if d.objet.None? {
      // reading the state of a missing item raises; the block is rolled back
      s.declarations := saved;
      return Refused(Failed);
    }
    var o := d.objet.value;
    if s.objets[o].etat == Perdu {
      s.objets := s.objets[o := s.objets[o].(etat := Reclame)];
      var cur := s.declarations[id];
      if cur.reclamePar == {} {
        assert cur.reclamePar + {u} == {u};
        s.declarations := s.declarations[id := cur.(reclamePar := cur.reclamePar + {u})];
      }
    } else {
      assert s.objets[o := s.objets[o]] == s.objets;
    }
    out := Done;
  }

  /**
   * `ca_m_appartient`: a citizen claims a declared item. The declarant, a
   * citizen who already claimed it, and any claim on an item that is neither
   * found nor claimed are refused. Otherwise the citizen joins `reclamePar`
   * and the item is claimed (a found item becomes claimed, a claimed one
   * stays claimed).
   */
  method CaMAppartient(s: Store, req: Requester, id: DeclarationId) returns (out: Outcome)
    requires s.Valid()
    modifies s
    ensures s.Valid()
    ensures old(UniqueClaims(s.restitutions)) ==> UniqueClaims(s.restitutions)
    ensures out.Refused? ==> s.Rows() == old(s.Rows())
    ensures req.Anonymous? ==> out == Refused(NeedsLogin)
    ensures req.Authenticated? && id !in old(s.declarations) ==> out == Refused(NotFound)
    ensures req.Authenticated? && id in old(s.declarations) && old(s.declarations)[id].citoyen == Some(req.id)
            ==> out == Refused(OwnItem)
    ensures req.Authenticated? && id in old(s.declarations) && old(s.declarations)[id].citoyen != Some(req.id)
            && req.id in old(s.declarations)[id].reclamePar
            ==> out == Refused(AlreadyClaimed)
    ensures req.Authenticated? && id in old(s.declarations) && old(s.declarations)[id].citoyen != Some(req.id)
            && req.id !in old(s.declarations)[id].reclamePar && old(s.declarations)[id].objet.Some?
            && old(s.objets)[old(s.declarations)[id].objet.value].etat !in {Trouve, Reclame}
            ==> out == Refused(NotClaimable)
    ensures out == Done <==>
            && req.Authenticated? && id in old(s.declarations)
            && old(s.declarations)[id].citoyen != Some(req.id)
            && req.id !in old(s.declarations)[id].reclamePar
            && old(s.declarations)[id].objet.Some?
            && old(s.objets)[old(s.declarations)[id].objet.value].etat in {Trouve, Reclame}
    ensures out == Done ==>
            && req.Authenticated? && id in old(s.declarations) && old(s.declarations)[id].objet.Some?
            && var d := old(s.declarations)[id];
               var o := d.objet.value;
               s.Rows() == old(s.Rows()).(
                 declarations := old(s.declarations)[id := d.(reclamePar := d.reclamePar + {req.id})],
                 objets := old(s.objets)[o := old(s.objets)[o].(etat := Reclame)])
  {
    if req.Anonymous? {
      return Refused(NeedsLogin);
    }
    if id !in s.declarations {
      return Refused(NotFound);
    }
    var u := req.id;
    var d := s.declarations[id];
    if d.citoyen == Some(u) {
      return Refused(OwnItem);
    }
    if u in d.reclamePar {
      return Refused(AlreadyClaimed);
    }
    if d.objet.None? {
      // reading the state of a missing item raises outside the try block
      return Refused(ServerError);
    }
    var o := d.objet.value;
    if s.objets[o].etat !in {Trouve, Reclame} {
      return Refused(NotClaimable);
    }
    s.declarations := s.declarations[id := d.(reclamePar := d.reclamePar + {u})];
    if s.objets[o].etat == Trouve {
      s.objets := s.objets[o := s.objets[o].(etat := Reclame)];
    }
    out := Done;
  }

  /**
   * `reclamer_objet`: the citizen of a restitution reopens it once the item
   * has been returned; the item goes back to claimed. Anyone else, and an
   * item not yet returned, is refused.
   */
  method ReclamerObjet(s: Store, req: Requester, id: RestitutionId) returns (out: Outcome)
    requires s.Valid()
    modifies s
    ensures s.Valid()
    ensures old(UniqueClaims(s.restitutions)) ==> UniqueClaims(s.restitutions)
    ensures out.Refused? ==> s.Rows() == old(s.Rows())
    ensures req.Anonymous? ==> out == Refused(NeedsLogin)
    ensures req.Authenticated? && id !in old(s.restitutions) ==> out == Refused(NotFound)
    ensures req.Authenticated? && id in old(s.restitutions) && old(s.restitutions)[id].citoyen != Some(req.id)
            ==> out == Refused(NotAuthorized)
    ensures req.Authenticated? && id in old(s.restitutions) && old(s.restitutions)[id].citoyen == Some(req.id)
            && old(s.restitutions)[id].objet.Some?
            && old(s.objets)[old(s.restitutions)[id].objet.value].etat != Restitue
            ==> out == Refused(NotYetReturned)
    ensures out == Done <==>
            && req.Authenticated? && id in old(s.restitutions)
            && old(s.restitutions)[id].citoyen == Some(req.id)
            && old(s.restitutions)[id].objet.Some?
            && old(s.objets)[old(s.restitutions)[id].objet.value].etat == Restitue
    ensures out == Done ==>
            && id in old(s.restitutions) && old(s.restitutions)[id].objet.Some?
            && var o := old(s.restitutions)[id].objet.value;
               s.Rows() == old(s.Rows()).(objets := old(s.objets)[o := old(s.objets)[o].(etat := Reclame)])
  {
    if req.Anonymous? {
      return Refused(NeedsLogin);
    }
    if id !in s.restitutions {
      return Refused(NotFound);
    }
    var r := s.restitutions[id];
    if r.citoyen != Some(req.id) {
      return Refused(NotAuthorized);
    }
    if r.objet.None? {
      return Refused(ServerError);
    }
    var o := r.objet.value;
    if s.objets[o].etat != Restitue {
      return Refused(NotYetReturned);
    }
    s.objets := s.objets[o := s.objets[o].(etat := Reclame)];
    out := Done;
  }

  // ---------------------------------------------------------------------
  // Officer actions
  // ---------------------------------------------------------------------

  /** The claimant `planifier_restitution` records: the declarant of a lost item, else the posted claimant. */
  function PlannedClaimant(d: Declaration, reclamant: Option<UserId>): (c: Option<UserId>)
    ensures d.etatInitial == Some(Perdu) ==> c == d.citoyen
    ensures d.etatInitial != Some(Perdu) ==> c == reclamant
  {
    if d.etatInitial == Some(Perdu) then d.citoyen else reclamant
  }

  /** The finder `planifier_restitution` requires: the posted finder of a lost item, else the declarant. */
  function PlannedFinder(d: Declaration, trouveur: Option<UserId>): (f: Option<UserId>)
    ensures d.etatInitial == Some(Perdu) ==> f == trouveur
    ensures d.etatInitial != Some(Perdu) ==> f == d.citoyen
  {
    if d.etatInitial == Some(Perdu) then trouveur else d.citoyen
  }

  /**
   * The declarant always takes one of the two roles: the claimant of a lost
   * item, the finder of a found one; the other role is the one posted.
   */
  lemma DeclarantTakesOneRole(d: Declaration, trouveur: Option<UserId>, reclamant: Option<UserId>)
    ensures PlannedClaimant(d, reclamant) == d.citoyen || PlannedFinder(d, trouveur) == d.citoyen
    ensures PlannedClaimant(d, reclamant) == reclamant || PlannedFinder(d, trouveur) == trouveur
  {
  }

  /** Every guard of `planifier_restitution` up to the get-or-create passes. */
  ghost predicate PlanningFormComplete(
    db: Db, id: DeclarationId, date: Option<Date>, heure: Option<Time>, commissariat: Option<StationId>,
    trouveur: Option<UserId>, reclamant: Option<UserId>)
  {
    && id in db.declarations
    && var d := db.declarations[id];
       && d.objet.Some?
       && d.etatInitial in {Some(Perdu), Some(Trouve)}
       && date.Some? && heure.Some? && commissariat.Some?
       && d.citoyen.Some?
       && PlannedFinder(d, trouveur).Some? && PlannedClaimant(d, reclamant).Some?
       && commissariat.value in db.commissariats
  }

  /**
   * `planifier_restitution` (form submission): plans the handover of a
   * declaration's item to its claimant at a station. Missing date, time,
   * station, finder or claimant refuses the request. The restitution for
   * (item, claimant) is fetched or, if there is none, created, which saves it
   * and so runs the cascade of `Restitution.save` first; a claimant naming no
   * account makes that insert fail and roll back. Only then is the item
   * moved from claimed to awaiting return. The stored date and time of a new
   * restitution are the clock's (`today`, `now`): both columns are filled on
   * insertion, whatever was posted.
   */
  method PlanifierRestitution(
    s: Store, req: Requester, id: DeclarationId,
    date: Option<Date>, heure: Option<Time>, commissariat: Option<StationId>,
    trouveur: Option<UserId>, reclamant: Option<UserId>,
    today: Date, now: Time)
    returns (out: Outcome)
    requires s.Valid()
    modifies s
    ensures s.Valid()
    ensures old(UniqueClaims(s.restitutions)) ==> UniqueClaims(s.restitutions)
    ensures out.Refused? ==> s.Rows() == old(s.Rows())
    ensures id !in old(s.declarations) ==> out == Refused(NotFound)
    ensures id in old(s.declarations) && old(s.declarations)[id].objet.None? ==> out == Refused(NotLinked)
    ensures id in old(s.declarations) && old(s.declarations)[id].objet.Some?
            && old(s.declarations)[id].etatInitial !in {Some(Perdu), Some(Trouve)}
            ==> out == Refused(InvalidInitialState)
    ensures id in old(s.declarations) && old(s.declarations)[id].objet.Some?
            && old(s.declarations)[id].etatInitial in {Some(Perdu), Some(Trouve)}
            && (date.None? || heure.None? || commissariat.None?)
            ==> out == Refused(MissingFields)
    ensures id in old(s.declarations) && old(s.declarations)[id].objet.Some?
            && old(s.declarations)[id].etatInitial in {Some(Perdu), Some(Trouve)}
            && date.Some? && heure.Some? && commissariat.Some? && old(s.declarations)[id].citoyen.Some?
            && (PlannedFinder(old(s.declarations)[id], trouveur).None?
                || PlannedClaimant(old(s.declarations)[id], reclamant).None?)
            ==> out == Refused(MissingParties)
    ensures PlanningFormComplete(old(s.Rows()), id, date, heure, commissariat, trouveur, reclamant) && out != Done
            ==> out == Refused(ServerError)
    ensures out == Done <==>
            && PlanningFormComplete(old(s.Rows()), id, date, heure, commissariat, trouveur, reclamant)
            && var d := old(s.declarations)[id];
               var claims := ClaimsFor(old(s.restitutions), d.objet.value, PlannedClaimant(d, reclamant).value);
               && |claims| <= 1
               && (claims == {} ==> req.Authenticated? && PlannedClaimant(d, reclamant).value in old(s.utilisateurs))
    ensures out == Done ==>
            && PlanningFormComplete(old(s.Rows()), id, date, heure, commissariat, trouveur, reclamant)
            && var d := old(s.declarations)[id];
               var o := d.objet.value;
               var c := PlannedClaimant(d, reclamant).value;
               var before := old(s.objets)[o];
               && |ClaimsFor(s.restitutions, o, c)| == 1
               && (ClaimsFor(old(s.restitutions), o, c) == {} ==>
                     && req.Authenticated? && c in old(s.utilisateurs)
                     && s.Rows() == old(s.Rows()).(
                          restitutions := old(s.restitutions)[old(s.nextRestitutionId) :=
                            Restitution(Some(o), Some(c), Some(req.id), None, commissariat, today, now, Planifiee)],
                          nextRestitutionId := old(s.nextRestitutionId) + 1,
                          objets := old(s.objets)[o := before.(etat := Restitue)]))
               && (ClaimsFor(old(s.restitutions), o, c) != {} ==>
                     s.Rows() == old(s.Rows()).(
                       objets := old(s.objets)[o := before.(etat := if before.etat == Reclame then EnAttente else before.etat)]))
  {
    if id !in s.declarations {
      return Refused(NotFound);
    }
    var d := s.declarations[id];
    if d.objet.None? {
      return Refused(NotLinked);
    }
    if d.etatInitial != Some(Perdu) && d.etatInitial != Some(Trouve) {
      return Refused(InvalidInitialState);
    }
    if date.None? || heure.None? || commissariat.None? {
      return Refused(MissingFields);
    }
    // both branches read the declarant's id; a declaration without one raises
    if d.citoyen.None? {
      return Refused(ServerError);
    }
    var trouveurId, reclamantId;
    if d.etatInitial == Some(Perdu) {
      trouveurId, reclamantId := trouveur, d.citoyen;
    } else {
      trouveurId, reclamantId := d.citoyen, reclamant;
    }
    if trouveurId.None? || reclamantId.None? {
      return Refused(MissingParties);
    }
    if commissariat.value !in s.commissariats {
      return Refused(NotFound);
    }
    assert PlanningFormComplete(s.Rows(), id, date, heure, commissariat, trouveur, reclamant);
    var o := d.objet.value;
    var c := reclamantId.value;
    var existing := ClaimsFor(s.restitutions, o, c);
    if |existing| > 1 {
      // get_or_create raises MultipleObjectsReturned
      return Refused(ServerError);
    }
    if existing == {} {
      if req.Anonymous? {
        // the officer column cannot hold an anonymous user
        return Refused(ServerError);
      }
      if c !in s.utilisateurs {
        // the insert breaks the claimant's foreign key; get_or_create's atomic
        // block rolls back the cascade's write to the item and the error propagates
        return Refused(ServerError);
      }
      var r := Restitution(Some(o), Some(c), Some(req.id), None, commissariat, today, now, Planifiee);
      var next := s.nextRestitutionId;
      WriteKeepsUniqueClaimsIfUnique(s.restitutions, next, r);
      s.SaveRestitution(next, r);
      assert ClaimsFor(s.restitutions, o, c) == {next};
    }
    if s.objets[o].etat == Reclame {
      s.objets := s.objets[o := s.objets[o].(etat := EnAttente)];
    }
    out := Done;
  }

  /** Inserting a restitution under a fresh key keeps pairs unique if they were. */
  lemma WriteKeepsUniqueClaimsIfUnique(rs: map<RestitutionId, Restitution>, k: RestitutionId, r: Restitution)
    requires k !in rs
    requires r.objet.Some? && r.citoyen.Some? && ClaimsFor(rs, r.objet.value, r.citoyen.value) == {}
    ensures UniqueClaims(rs) ==> UniqueClaims(rs[k := r])
  {
    if UniqueClaims(rs) {
      WriteKeepsUniqueClaims(rs, k, r);
    }
  }

  /**
   * `marquer_restitue`: marks a restitution as performed. Saving it runs the
   * cascade, so its item is returned. No access check guards this view.
   */
  method MarquerRestitue(s: Store, id: RestitutionId) returns (out: Outcome)
    requires s.Valid()
    modifies s
    ensures s.Valid()
    ensures old(UniqueClaims(s.restitutions)) ==> UniqueClaims(s.restitutions)
    ensures out == Done <==> id in old(s.restitutions)
    ensures out.Refused? ==> out == Refused(NotFound) && s.Rows() == old(s.Rows())
    ensures out == Done ==>
            && id in old(s.restitutions)
            && var r := old(s.restitutions)[id].(statut := Effectuee);
               && s.Rows() == old(s.Rows()).(
                    restitutions := old(s.restitutions)[id := r],
                    objets := SaveCascade(old(s.objets), r))
               && (r.objet.Some? ==> s.objets[r.objet.value].etat == Restitue)
  {
    if id !in s.restitutions {
      return Refused(NotFound);
    }
    var r := s.restitutions[id].(statut := Effectuee);
    if UniqueClaims(s.restitutions) {
      WriteKeepsUniqueClaims(s.restitutions, id, r);
    }
    s.SaveRestitution(id, r);
    out := Done;
  }

  /**
   * `annuler_restitution` (officers only): cancels a restitution. The first
   * declaration of its item decides the state the item returns to: that
   * declaration's initial state, or lost when it has none. Without such a
   * declaration nothing changes.
   */
  method AnnulerRestitution(s: Store, req: Requester, id: RestitutionId) returns (out: Outcome)
    requires s.Valid()
    modifies s
    ensures s.Valid()
    ensures old(UniqueClaims(s.restitutions)) ==> UniqueClaims(s.restitutions)
    ensures out.Refused? ==> s.Rows() == old(s.Rows())
    ensures PolicierRequired(req) != Granted ==> out == Refused(Denied(PolicierRequired(req)))
    ensures PolicierRequired(req) == Granted && id !in old(s.restitutions) ==> out == Refused(NotFound)
    ensures PolicierRequired(req) == Granted && id in old(s.restitutions)
            && FirstDeclaration(old(s.declarations), old(s.restitutions)[id].objet).None?
            ==> out == Refused(NoDeclaration)
    ensures out == Done <==>
            && PolicierRequired(req) == Granted && id in old(s.restitutions)
            && FirstDeclaration(old(s.declarations), old(s.restitutions)[id].objet).Some?
            && old(s.restitutions)[id].objet.Some?
    ensures out == Done ==>
            && id in old(s.restitutions) && old(s.restitutions)[id].objet.Some?
            && FirstDeclaration(old(s.declarations), old(s.restitutions)[id].objet).Some?
            && var o := old(s.restitutions)[id].objet.value;
               var d := old(s.declarations)[FirstDeclaration(old(s.declarations), Some(o)).value];
               s.Rows() == old(s.Rows()).(
                 objets := old(s.objets)[o := old(s.objets)[o].(etat := d.etatInitial.GetOr(Perdu))],
                 restitutions := old(s.restitutions) - {id})
  {
    var access := PolicierRequired(req);
    if access != Granted {
      return Refused(Denied(access));
    }
    if id !in s.restitutions {
      return Refused(NotFound);
    }
    var objet := s.restitutions[id].objet;
    var first := FirstDeclaration(s.declarations, objet);
    if first.None? {
      return Refused(NoDeclaration);
    }
    if objet.None? {
      // a declaration without an item was found; writing the state of the missing item raises
      return Refused(ServerError);
    }
    var o := objet.value;
    var d := s.declarations[first.value];
    s.objets := s.objets[o := s.objets[o].(etat := d.etatInitial.GetOr(Perdu))];
    if UniqueClaims(s.restitutions) {
      DeleteKeepsUniqueClaims(s.restitutions, id);
    }
    s.restitutions := s.restitutions - {id};
    out := Done;
  }

  /** `supprimer_restitution` (officers only): only the planning officer may delete a restitution. */
  method SupprimerRestitution(s: Store, req: Requester, id: RestitutionId) returns (out: Outcome)
    requires s.Valid()
    modifies s
    ensures s.Valid()
    ensures old(UniqueClaims(s.restitutions)) ==> UniqueClaims(s.restitutions)
    ensures out.Refused? ==> s.Rows() == old(s.Rows())
    ensures PolicierRequired(req) != Granted ==> out == Refused(Denied(PolicierRequired(req)))
    ensures PolicierRequired(req) == Granted && id !in old(s.restitutions) ==> out == Refused(NotFound)
    ensures PolicierRequired(req) == Granted && id in old(s.restitutions)
            && old(s.restitutions)[id].policier != Some(req.id)
            ==> out == Refused(NotAuthorized)
    ensures out == Done <==>
            && PolicierRequired(req) == Granted && id in old(s.restitutions)
            && old(s.restitutions)[id].policier == Some(req.id)
    ensures out == Done ==> s.Rows() == old(s.Rows()).(restitutions := old(s.restitutions) - {id})
  {
    var access := PolicierRequired(req);
    if access != Granted {
      return Refused(Denied(access));
    }
    if id !in s.restitutions {
      return Refused(NotFound);
    }
    if s.restitutions[id].policier != Some(req.id) {
      return Refused(NotAuthorized);
    }
    if UniqueClaims(s.restitutions) {
      DeleteKeepsUniqueClaims(s.restitutions, id);
    }
    s.restitutions := s.restitutions - {id};
    out := Done;
  }

  // ---------------------------------------------------------------------
  // Administrator actions
  // ---------------------------------------------------------------------

  /**
   * `bannir_citoyen` (`banni` true) and `debannir_citoyen` (`banni` false):
   * an administrator sets the ban flag of a citizen account; a missing
   * account, or one that is not a citizen's, is not found.
   */
  method ChangerBannissement(s: Store, req: Requester, pk: UserId, banni: bool) returns (out: Outcome)
    requires s.Valid()
    modifies s
    ensures s.Valid()
    ensures out.Refused? ==> s.Rows() == old(s.Rows())
    ensures AdminTest(req) != Granted ==> out == Refused(NeedsLogin)
    ensures AdminTest(req) == Granted && (pk !in old(s.utilisateurs) || old(s.utilisateurs)[pk].role != Citoyen)
            ==> out == Refused(NotFound)
    ensures out == Done <==>
            AdminTest(req) == Granted && pk in old(s.utilisateurs) && old(s.utilisateurs)[pk].role == Citoyen
    ensures out == Done ==>
            pk in old(s.utilisateurs)
            && s.Rows() == old(s.Rows()).(
                 utilisateurs := old(s.utilisateurs)[pk := old(s.utilisateurs)[pk].(estBanni := banni)])
  {
    if AdminTest(req) != Granted {
      return Refused(NeedsLogin);
    }
    if pk !in s.utilisateurs || s.utilisateurs[pk].role != Citoyen {
      return Refused(NotFound);
    }
    s.utilisateurs := s.utilisateurs[pk := s.utilisateurs[pk].(estBanni := banni)];
    out := Done;
  }
}
