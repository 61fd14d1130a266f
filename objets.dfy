/**
 * The records of backend/objets/models.py (items, declarations,
 * restitutions), their string renderings and listing order, the
 * `Restitution.save` cascade, and the store that holds them.
 */
module Objets {
  import opened Wrappers
  import opened Users

  type ObjetId = nat
  type DeclarationId = nat
  type RestitutionId = nat

  // ---------------------------------------------------------------------
  // Item states
  // ---------------------------------------------------------------------

  /**
   * The item states the views use (`EtatObjet`). The enumeration itself is
   * not defined in the models; its members are taken from the views.
   */
  datatype Etat = Perdu | Trouve | Reclame | EnAttente | Restitue

  /**
   * The string stored in `Objet.etat` for each state. The three members whose
   * names match the model's `choices` carry those choices' keys; the values of
   * the other two are assumed and are not among the choices.
   */
  function EtatValue(e: Etat): (v: string)
    ensures IsChoice(v) <==> e in {Perdu, Trouve, Restitue}
  {
    match e
    case Perdu => assert EtatChoices[0].0 == "perdu"; "perdu"
    case Trouve => assert EtatChoices[1].0 == "retrouvé"; "retrouvé"
    case Reclame => "reclame"
    case EnAttente => "en_attente"
    case Restitue => assert EtatChoices[2].0 == "restitué"; "restitué"
  }

  /** Distinct states are stored as distinct strings. */
  lemma EtatValueInjective(a: Etat, b: Etat)
    ensures EtatValue(a) == EtatValue(b) <==> a == b
  {
  }

  /** The `choices` of `Objet.etat`: stored value and display label. */
  const EtatChoices: seq<(string, string)> :=
    [("perdu", "Perdu"), ("retrouvé", "Retrouvé"), ("restitué", "Restitué")]

  /** The stored value `v` is one of the declared choices. */
  predicate IsChoice(v: string) {
    exists c :: c in EtatChoices && c.0 == v
  }

  /**
   * `get_etat_display()`: the label of the matching choice, or the stored
   * value itself when it is not among the choices.
   */
  function GetEtatDisplay(e: Etat): (shown: string)
    ensures IsChoice(EtatValue(e)) ==> (EtatValue(e), shown) in EtatChoices
    ensures !IsChoice(EtatValue(e)) ==> shown == EtatValue(e)
  {
    match e
    case Perdu => "Perdu"
    case Trouve => "Retrouvé"
    case Restitue => "Restitué"
    case Reclame => EtatValue(e)
    case EnAttente => EtatValue(e)
  }

  /** `StatutRestitution`: planned or performed. */
  datatype Statut = Planifiee | Effectuee

  // ---------------------------------------------------------------------
  // Records
  // ---------------------------------------------------------------------

  datatype Objet = Objet(nom: string, description: Option<string>, etat: Etat, codeUnique: Option<string>)

  /**
   * A declaration: its declarant, its item, its initial state and the
   * citizens who reported finding the item (`trouvePar`) or claimed it
   * (`reclamePar`, a collection as the views use it).
   */
  datatype Declaration = Declaration(
    citoyen: Option<UserId>,
    objet: Option<ObjetId>,
    lieu: Option<string>,
    description: Option<string>,
    etatInitial: Option<Etat>,
    trouvePar: set<UserId>,
    reclamePar: set<UserId>)

  datatype Date = Date(year: int, month: int, day: int)
  datatype Time = Time(hour: int, minute: int, second: int)

  /** A restitution: item, claimant, planning officer, performing officer, station, when, status. */
  datatype Restitution = Restitution(
    objet: Option<ObjetId>,
    citoyen: Option<UserId>,
    policier: Option<UserId>,
    restituePar: Option<UserId>,
    commissariat: Option<StationId>,
    date: Date,
    heure: Time,
    statut: Statut)

  /** A new item with only the given fields set takes the field defaults. */
  function NewObjet(nom: string, description: Option<string>): (o: Objet)
    ensures o.nom == nom && o.description == description && o.codeUnique == None
    ensures EtatValue(o.etat) == "perdu"
  {
    Objet(nom, description, Perdu, None)
  }

  // ---------------------------------------------------------------------
  // String renderings
  // ---------------------------------------------------------------------

  /** `Objet.__str__`: "<nom> (<state label>)". */
  function ObjetStr(o: Objet): (s: string)
    ensures |s| >= |o.nom| && s[..|o.nom|] == o.nom
    ensures s[|o.nom|..] == " (" + GetEtatDisplay(o.etat) + ")"
  {
    o.nom + " (" + GetEtatDisplay(o.etat) + ")"
  }

  const DeclarationPrefix: string := "Déclaration - "
  const ObjetInconnu: string := "Objet inconnu"

  /** `Declaration.__str__`, given the declaration's item if it has one. */
  function DeclarationStr(objet: Option<Objet>): (s: string)
    ensures |s| >= |DeclarationPrefix| && s[..|DeclarationPrefix|] == DeclarationPrefix
    ensures objet.Some? ==> s[|DeclarationPrefix|..] == objet.value.nom
    ensures objet.None? ==> s[|DeclarationPrefix|..] == ObjetInconnu
  {
    DeclarationPrefix + if objet.Some? then objet.value.nom else ObjetInconnu
  }

  /** Python's rendering of an absent reference inside an f-string. */
  const NoneStr: string := "None"

  const RestitutionPrefix: string := "Restitution de "
  const RestitutionJoin: string := " à "

  /** `str()` of an item reference inside an f-string: its rendering, or "None". */
  function ObjetShown(objet: Option<Objet>): string {
    if objet.Some? then ObjetStr(objet.value) else NoneStr
  }

  /** `str()` of a user reference inside an f-string: its rendering, or "None". */
  function CitoyenShown(citoyen: Option<Utilisateur>): string {
    if citoyen.Some? then UtilisateurStr(citoyen.value) else NoneStr
  }

  /**
   * `Restitution.__str__`, given its item and its citizen if set: the prefix,
   * then the item as shown (its rendering starts with its name), then " à ",
   * then the citizen as shown.
   */
  function RestitutionStr(objet: Option<Objet>, citoyen: Option<Utilisateur>): (s: string)
    ensures var ob, cit := ObjetShown(objet), CitoyenShown(citoyen);
            && |s| == |RestitutionPrefix| + |ob| + |RestitutionJoin| + |cit|
            && s[..|RestitutionPrefix|] == RestitutionPrefix
            && s[|RestitutionPrefix|..|RestitutionPrefix| + |ob|] == ob
            && s[|RestitutionPrefix| + |ob|..|RestitutionPrefix| + |ob| + |RestitutionJoin|] == RestitutionJoin
            && s[|RestitutionPrefix| + |ob| + |RestitutionJoin|..] == cit
  {
    var ob, cit := ObjetShown(objet), CitoyenShown(citoyen);
    ConcatParts(RestitutionPrefix, ob, RestitutionJoin, cit);
    RestitutionPrefix + ob + RestitutionJoin + cit
  }

  /** The four parts of a concatenation are found back at their offsets. */
  lemma {:induction false} ConcatParts(a: string, b: string, c: string, d: string)
    ensures var s := a + b + c + d;
            && s[..|a|] == a
            && s[|a|..|a| + |b|] == b
            && s[|a| + |b|..|a| + |b| + |c|] == c
            && s[|a| + |b| + |c|..] == d
  {
    var s := a + b + c + d;
    assert s == ((a + b) + c) + d;
    assert (a + b) + c == s[..|a| + |b| + |c|];
    assert a + b == s[..|a| + |b|];
  }

  lemma {:induction false} ConcatCancelLeft(p: string, a: string, b: string)
    ensures p + a == p + b <==> a == b
  {
    if p + a == p + b {
      assert a == (p + a)[|p|..];
      assert b == (p + b)[|p|..];
    }
  }

  lemma {:induction false} ConcatCancelRight(a: string, b: string, q: string)
    ensures a + q == b + q <==> a == b
  {
    if a + q == b + q {
      assert |a| == |b|;
      assert a == (a + q)[..|a|];
      assert b == (b + q)[..|b|];
    }
  }

  /** Two items in the same state render alike exactly when their names are equal. */
  lemma ObjetStrDistinguishesNames(a: Objet, b: Objet)
    requires a.etat == b.etat
    ensures ObjetStr(a) == ObjetStr(b) <==> a.nom == b.nom
  {
    var tail := " (" + GetEtatDisplay(a.etat) + ")";
    assert ObjetStr(a) == a.nom + tail;
    assert ObjetStr(b) == b.nom + tail;
    ConcatCancelRight(a.nom, b.nom, tail);
  }

  /**
   * Two declarations with items render alike exactly when the item names are
   * equal, and a declaration without an item renders like one whose item is
   * named "Objet inconnu" and like no other.
   */
  lemma DeclarationStrDistinguishesNames(a: Objet, b: Objet)
    ensures DeclarationStr(Some(a)) == DeclarationStr(Some(b)) <==> a.nom == b.nom
    ensures DeclarationStr(Some(a)) == DeclarationStr(None) <==> a.nom == ObjetInconnu
  {
    ConcatCancelLeft(DeclarationPrefix, a.nom, b.nom);
    ConcatCancelLeft(DeclarationPrefix, a.nom, ObjetInconnu);
  }

  // ---------------------------------------------------------------------
  // Listing order of restitutions: latest date first, then latest time
  // ---------------------------------------------------------------------

  predicate DateBefore(a: Date, b: Date) {
    a.year < b.year
    || (a.year == b.year && a.month < b.month)
    || (a.year == b.year && a.month == b.month && a.day < b.day)
  }

  predicate TimeBefore(a: Time, b: Time) {
    a.hour < b.hour
    || (a.hour == b.hour && a.minute < b.minute)
    || (a.hour == b.hour && a.minute == b.minute && a.second < b.second)
  }

  /**
   * `a` may be listed before `b` under ordering `-date_restitution,
   * -heure_restitution`: an earlier date never comes first, nor an earlier
   * time on the same date, and entries at the same moment may come in either
   * order.
   */
  predicate ListedBefore(a: Restitution, b: Restitution)
    ensures DateBefore(a.date, b.date) ==> !ListedBefore(a, b)
    ensures a.date == b.date && TimeBefore(a.heure, b.heure) ==> !ListedBefore(a, b)
    ensures a.date == b.date && a.heure == b.heure ==> ListedBefore(a, b)
  {
    DateBefore(b.date, a.date) || (a.date == b.date && !TimeBefore(a.heure, b.heure))
  }

  /** Every pair of restitutions in the list is in listing order. */
  predicate ListedInOrder(rs: seq<Restitution>) {
    forall i, j :: 0 <= i < j < |rs| ==> ListedBefore(rs[i], rs[j])
  }

  /** Any two restitutions can be ordered, and the order is transitive. */
  lemma ListedBeforeTotalPreorder(a: Restitution, b: Restitution, c: Restitution)
    ensures ListedBefore(a, b) || ListedBefore(b, a)
    ensures ListedBefore(a, b) && ListedBefore(b, c) ==> ListedBefore(a, c)
  {
  }

  /** A list whose neighbours are in order is entirely in order. */
  lemma {:induction false} NeighboursInOrder(rs: seq<Restitution>)
    requires forall i :: 0 <= i < |rs| - 1 ==> ListedBefore(rs[i], rs[i + 1])
    ensures ListedInOrder(rs)
  {
    if |rs| > 1 {
      NeighboursInOrder(rs[1..]);
      forall j | 1 <= j < |rs|
        ensures ListedBefore(rs[0], rs[j])
      {
        var k := 1;
        while k < j
          invariant 1 <= k <= j
          invariant ListedBefore(rs[0], rs[k])
        {
          assert ListedBefore(rs[1..][k - 1], rs[1..][k]);
          ListedBeforeTotalPreorder(rs[0], rs[k], rs[k + 1]);
          k := k + 1;
        }
      }
      forall i, j | 0 <= i < j < |rs|
        ensures ListedBefore(rs[i], rs[j])
      {
        if i > 0 {
          assert ListedBefore(rs[1..][i - 1], rs[1..][j - 1]);
        }
      }
    }
  }

  // ---------------------------------------------------------------------
  // The store and the save cascade
  // ---------------------------------------------------------------------

  /** A snapshot of every table the lifecycle touches. */
  datatype Db = Db(
    objets: map<ObjetId, Objet>,
    declarations: map<DeclarationId, Declaration>,
    restitutions: map<RestitutionId, Restitution>,
    utilisateurs: map<UserId, Utilisateur>,
    commissariats: set<StationId>,
    nextRestitutionId: RestitutionId)

  /**
   * The foreign keys from declarations and restitutions to items resolve
   * (both cascade on delete), and every restitution key is below the next
   * key the table hands out.
   */
  ghost predicate RowsValid(db: Db) {
    && (forall d :: d in db.declarations && db.declarations[d].objet.Some? ==>
          db.declarations[d].objet.value in db.objets)
    && (forall r :: r in db.restitutions && db.restitutions[r].objet.Some? ==>
          db.restitutions[r].objet.value in db.objets)
    && (forall r :: r in db.restitutions ==> r < db.nextRestitutionId)
  }

  /** The restitutions recorded for item `o` and claimant `c`. */
  function ClaimsFor(rs: map<RestitutionId, Restitution>, o: ObjetId, c: UserId): set<RestitutionId> {
    set k | k in rs && rs[k].objet == Some(o) && rs[k].citoyen == Some(c)
  }

  /** No two restitutions share an (item, claimant) pair. */
  ghost predicate UniqueClaims(rs: map<RestitutionId, Restitution>) {
    forall o, c :: |ClaimsFor(rs, o, c)| <= 1
  }

  /**
   * Writing `r` under key `k` keeps every (item, claimant) pair unique when it
   * either rewrites a row without changing its pair or inserts a pair that is
   * not yet recorded.
   */
  lemma WriteKeepsUniqueClaims(rs: map<RestitutionId, Restitution>, k: RestitutionId, r: Restitution)
    requires UniqueClaims(rs)
    requires k in rs ==> rs[k].objet == r.objet && rs[k].citoyen == r.citoyen
    requires k !in rs && r.objet.Some? && r.citoyen.Some? ==> ClaimsFor(rs, r.objet.value, r.citoyen.value) == {}
    ensures UniqueClaims(rs[k := r])
  {
    var written := rs[k := r];
    forall o: ObjetId, c: UserId
      ensures |ClaimsFor(written, o, c)| <= 1
    {
      var before := ClaimsFor(rs, o, c);
      var after := ClaimsFor(written, o, c);
      if r.objet == Some(o) && r.citoyen == Some(c) {
        if k in rs {
          assert after == before;
        } else {
          assert after == {k};
        }
      } else {
        assert after == before - {k};
        assert |before - {k}| <= |before|;
      }
    }
  }

  /** Deleting a row keeps every (item, claimant) pair unique. */
  lemma DeleteKeepsUniqueClaims(rs: map<RestitutionId, Restitution>, k: RestitutionId)
    requires UniqueClaims(rs)
    ensures UniqueClaims(rs - {k})
  {
    var remaining := rs - {k};
    forall o: ObjetId, c: UserId
      ensures |ClaimsFor(remaining, o, c)| <= 1
    {
      assert ClaimsFor(remaining, o, c) == ClaimsFor(rs, o, c) - {k};
    }
  }

  /** The declarations whose item reference equals `o` (absent included). */
  function DeclarationsOf(decls: map<DeclarationId, Declaration>, o: Option<ObjetId>): set<DeclarationId> {
    set k | k in decls && decls[k].objet == o
  }

  /** `m` is the smallest element of `ks`. */
  predicate IsLeast(m: nat, ks: set<nat>) {
    m in ks && forall k :: k in ks ==> m <= k
  }

  lemma {:induction false} LeastExists(ks: set<nat>)
    requires ks != {}
    ensures exists m :: IsLeast(m, ks)
  {
    var x :| x in ks;
    var rest := ks - {x};
    if rest == {} {
      assert ks == {x};
      assert IsLeast(x, ks);
    } else {
      LeastExists(rest);
      var m :| IsLeast(m, rest);
      var least := if x < m then x else m;
      forall k | k in ks
        ensures least <= k
      {
        if k != x {
          assert k in rest;
        }
      }
      assert IsLeast(least, ks);
    }
  }

  /** The smallest key of a non-empty key set. */
  function Least(ks: set<nat>): (m: nat)
    requires ks != {}
    ensures IsLeast(m, ks)
  {
    LeastExists(ks);
    var m :| IsLeast(m, ks);
    m
  }

  /**
   * `Declaration.objects.filter(objet=o).first()`: the declaration of item
   * `o` with the smallest primary key, if any.
   */
  function FirstDeclaration(decls: map<DeclarationId, Declaration>, o: Option<ObjetId>): (r: Option<DeclarationId>)
    ensures r.None? <==> (forall k :: k in decls ==> decls[k].objet != o)
    ensures r.Some? ==> r.value in decls && decls[r.value].objet == o
    ensures r.Some? ==> forall k :: k in decls && decls[k].objet == o ==> r.value <= k
  {
    var ks := DeclarationsOf(decls, o);
    assert forall k :: k in decls && decls[k].objet == o ==> k in ks;
    if ks == {} then None
    else
      var m := Least(ks);
      Some(m)
  }

  /**
   * The item table after `Restitution.save` on `r`: the item it references,
   * whatever the restitution's status, is set to the state stored as
   * "restitué"; no other item changes.
   */
  function SaveCascade(objets: map<ObjetId, Objet>, r: Restitution): (m: map<ObjetId, Objet>)
    requires r.objet.Some? ==> r.objet.value in objets
    ensures m.Keys == objets.Keys
    ensures r.objet.Some? ==> m[r.objet.value] == objets[r.objet.value].(etat := Restitue)
    ensures r.objet.Some? ==> EtatValue(m[r.objet.value].etat) == "restitué"
    ensures forall o :: o in objets && r.objet != Some(o) ==> m[o] == objets[o]
  {
    if r.objet.Some? then objets[r.objet.value := objets[r.objet.value].(etat := Restitue)] else objets
  }

  /** The cascade does not look at the restitution's status. */
  lemma SaveCascadeIgnoresStatut(objets: map<ObjetId, Objet>, r: Restitution, st: Statut)
    requires r.objet.Some? ==> r.objet.value in objets
    ensures SaveCascade(objets, r.(statut := st)) == SaveCascade(objets, r)
  {
  }

  /** The tables, updated in place by the views. */
  class Store {
    var objets: map<ObjetId, Objet>
    var declarations: map<DeclarationId, Declaration>
    var restitutions: map<RestitutionId, Restitution>
    var utilisateurs: map<UserId, Utilisateur>
    var commissariats: set<StationId>
    var nextRestitutionId: RestitutionId

    ghost function Rows(): Db
      reads this
    {
      Db(objets, declarations, restitutions, utilisateurs, commissariats, nextRestitutionId)
    }

    ghost predicate Valid()
      reads this
    {
      RowsValid(Rows())
    }

    constructor (db: Db)
      requires RowsValid(db)
      ensures Valid() && Rows() == db
    {
      objets := db.objets;
      declarations := db.declarations;
      restitutions := db.restitutions;
      utilisateurs := db.utilisateurs;
      commissariats := db.commissariats;
      nextRestitutionId := db.nextRestitutionId;
    }

    /**
     * `Restitution.save`: the referenced item is set to "restitué" and saved
     * first, then the restitution row is written (inserted under the next key
     * when `id` is new).
     */
    method SaveRestitution(id: RestitutionId, r: Restitution)
      requires Valid()
      requires r.objet.Some? ==> r.objet.value in objets
      requires id in restitutions || id == nextRestitutionId
      modifies this
      ensures Valid()
      ensures Rows() == old(Rows()).(
        objets := SaveCascade(old(objets), r),
        restitutions := old(restitutions)[id := r],
        nextRestitutionId := if id in old(restitutions) then old(nextRestitutionId) else old(nextRestitutionId) + 1)
    {
      if r.objet.Some? {
        var o := r.objet.value;
        objets := objets[o := objets[o].(etat := Restitue)];
      }
      if id !in restitutions {
        nextRestitutionId := nextRestitutionId + 1;
      }
      restitutions := restitutions[id := r];
    }
  }
}
