/**
 * One item's life through the views, request by request: a wallet declared
 * lost is reported found, planned for return, handed over, reopened by its
 * owner, planned again and finally cancelled. Each step starts a store from
 * the tables the previous step ends with.
 */
module Scenarios {
  import opened Wrappers
  import opened Users
  import opened Objets
  import opened Guards
  import opened Handlers

  const Owner: UserId := 10
  const Finder: UserId := 20
  const Officer: UserId := 30
  const Wallet: ObjetId := 1
  const Report: DeclarationId := 1
  const Station: StationId := 5

  /** The tables with the wallet in state `e`, the given declaration, restitutions and next key. */
  function Tables(e: Etat, d: Declaration, rs: map<RestitutionId, Restitution>, next: RestitutionId): Db {
    Db(
      map[Wallet := NewObjet("Portefeuille", Some("Cuir noir")).(etat := e)],
      map[Report := d],
      rs,
      map[Owner := Utilisateur("awa", "awa@example.org", Citoyen, false),
          Finder := Utilisateur("moussa", "moussa@example.org", Citoyen, false),
          Officer := Utilisateur("agent", "agent@example.org", Policier, false)],
      {Station},
      next)
  }

  /** The owner's declaration of the lost wallet, before anyone reported it. */
  const Declared: Declaration := Declaration(Some(Owner), Some(Wallet), Some("Gare"), None, Some(Perdu), {}, {})

  /** The same declaration once the finder has reported it. */
  const Reported: Declaration := Declared.(trouvePar := {Finder}, reclamePar := {Finder})

  /** The restitution of the wallet to its owner, planned by the officer. */
  function Handover(today: Date, now: Time, st: Statut): Restitution {
    Restitution(Some(Wallet), Some(Owner), Some(Officer), None, Some(Station), today, now, st)
  }

  /** A report by the finder: the lost wallet is claimed, with the finder as its first claimant. */
  method Found() returns (out: Outcome, after: Db)
    ensures out == Done
    ensures after == Tables(Reclame, Reported, map[], 1)
  {
    var s := new Store(Tables(Perdu, Declared, map[], 1));
    out := JeLeTrouve(s, Authenticated(Finder, Citoyen), Report);
    assert Declared.trouvePar + {Finder} == {Finder};
    after := Db(s.objets, s.declarations, s.restitutions, s.utilisateurs, s.commissariats, s.nextRestitutionId);
  }

  /** The same report again is refused, and the declarant cannot claim the wallet. */
  method RepeatedReports() returns (again: Outcome, own: Outcome)
    ensures again == Refused(AlreadyReported)
    ensures own == Refused(OwnItem)
  {
    var s := new Store(Tables(Reclame, Reported, map[], 1));
    again := JeLeTrouve(s, Authenticated(Finder, Citoyen), Report);
    own := CaMAppartient(s, Authenticated(Owner, Citoyen), Report);
  }

  /**
   * Planning creates the restitution, whose save returns the wallet at once:
   * it is returned, not awaiting return.
   */
  method Planned(today: Date, now: Time) returns (out: Outcome, after: Db)
    ensures out == Done
    ensures after == Tables(Restitue, Reported, map[1 := Handover(today, now, Planifiee)], 2)
  {
    var s := new Store(Tables(Reclame, Reported, map[], 1));
    assert ClaimsFor(s.restitutions, Wallet, Owner) == {};
    out := PlanifierRestitution(s, Authenticated(Officer, Policier), Report,
                                Some(today), Some(now), Some(Station), Some(Finder), None, today, now);
    after := Db(s.objets, s.declarations, s.restitutions, s.utilisateurs, s.commissariats, s.nextRestitutionId);
  }

  /** Marking the restitution done keeps the wallet returned. */
  method HandedOver(today: Date, now: Time) returns (out: Outcome, after: Db)
    ensures out == Done
    ensures after == Tables(Restitue, Reported, map[1 := Handover(today, now, Effectuee)], 2)
  {
    var s := new Store(Tables(Restitue, Reported, map[1 := Handover(today, now, Planifiee)], 2));
    out := MarquerRestitue(s, 1);
    after := Db(s.objets, s.declarations, s.restitutions, s.utilisateurs, s.commissariats, s.nextRestitutionId);
  }

  /** The owner reopens the returned wallet: it is claimed again while its restitution stays done. */
  method Reopened(today: Date, now: Time) returns (out: Outcome, after: Db)
    ensures out == Done
    ensures after == Tables(Reclame, Reported, map[1 := Handover(today, now, Effectuee)], 2)
  {
    var s := new Store(Tables(Restitue, Reported, map[1 := Handover(today, now, Effectuee)], 2));
    out := ReclamerObjet(s, Authenticated(Owner, Citoyen), 1);
    after := Db(s.objets, s.declarations, s.restitutions, s.utilisateurs, s.commissariats, s.nextRestitutionId);
  }

  /** Planning again finds the existing restitution, so the claimed wallet now awaits return. */
  method Replanned(today: Date, now: Time, later: Date, laterTime: Time) returns (out: Outcome, after: Db)
    ensures out == Done
    ensures after == Tables(EnAttente, Reported, map[1 := Handover(today, now, Effectuee)], 2)
  {
    var s := new Store(Tables(Reclame, Reported, map[1 := Handover(today, now, Effectuee)], 2));
    assert ClaimsFor(s.restitutions, Wallet, Owner) == {1};
    out := PlanifierRestitution(s, Authenticated(Officer, Policier), Report,
                                Some(later), Some(laterTime), Some(Station), Some(Finder), None, later, laterTime);
    after := Db(s.objets, s.declarations, s.restitutions, s.utilisateurs, s.commissariats, s.nextRestitutionId);
  }

  /** Cancelling deletes the restitution and restores the declaration's initial state: lost. */
  method Cancelled(today: Date, now: Time) returns (out: Outcome, after: Db)
    ensures out == Done
    ensures after == Tables(Perdu, Reported, map[], 2)
  {
    var s := new Store(Tables(EnAttente, Reported, map[1 := Handover(today, now, Effectuee)], 2));
    assert s.declarations.Keys == {Report} && s.declarations[Report].objet == Some(Wallet);
    assert FirstDeclaration(s.declarations, Some(Wallet)) == Some(Report);
    out := AnnulerRestitution(s, Authenticated(Officer, Policier), 1);
    after := Db(s.objets, s.declarations, s.restitutions, s.utilisateurs, s.commissariats, s.nextRestitutionId);
  }

  /**
   * A found wallet planned for a claimant id that names no account: the
   * insert fails inside get-or-create, so the wallet is not returned and no
   * restitution is stored.
   */
  method UnknownClaimant(today: Date, now: Time) returns (out: Outcome, after: Db)
    ensures out == Refused(ServerError)
    ensures after == Tables(Reclame, Declared.(etatInitial := Some(Trouve)), map[], 1)
  {
    var before := Tables(Reclame, Declared.(etatInitial := Some(Trouve)), map[], 1);
    var s := new Store(before);
    assert 999 !in s.utilisateurs;
    out := PlanifierRestitution(s, Authenticated(Officer, Policier), Report,
                                Some(today), Some(now), Some(Station), None, Some(999), today, now);
    after := Db(s.objets, s.declarations, s.restitutions, s.utilisateurs, s.commissariats, s.nextRestitutionId);
  }
}
