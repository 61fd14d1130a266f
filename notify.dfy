/** The recipient list of the notification `planifier_restitution` sends. */
module Notify {
  import opened Wrappers
  import opened Users
  import opened Objets
  import opened Handlers

  predicate NoDuplicates<T(==)>(xs: seq<T>) {
    forall i, j :: 0 <= i < j < |xs| ==> xs[i] != xs[j]
  }

  /** `list(set(xs))`: the same elements, each once. */
  function Dedup<T(==,!new)>(xs: seq<T>): (r: seq<T>)
    ensures NoDuplicates(r)
    ensures forall x :: x in r <==> x in xs
    ensures |r| <= |xs|
  {
    if xs == [] then []
    else
      var rest := Dedup(xs[1..]);
      if xs[0] in rest then rest else [xs[0]] + rest
  }

  /** The address of `u` as a list: empty when there is no user or the user has no address. */
  function EmailOf(emails: map<UserId, string>, u: Option<UserId>): seq<string> {
    if u.Some? && u.value in emails && emails[u.value] != "" then [emails[u.value]] else []
  }

  /**
   * The recipients: the finder, looked up among the declaration's finders,
   * and the claimant (the declarant of a lost item, otherwise looked up among
   * the claimants), each when they have an address; without repetition.
   */
  function PlanifierRecipients(d: Declaration, trouveurId: Option<UserId>, reclamantId: Option<UserId>,
                               emails: map<UserId, string>): (r: seq<string>)
    ensures NoDuplicates(r) && |r| <= 2
    ensures forall e :: e in r <==>
              || (trouveurId.Some? && trouveurId.value in d.trouvePar && trouveurId.value in emails
                  && e == emails[trouveurId.value] && e != "")
              || (d.etatInitial == Some(Perdu) && d.citoyen.Some? && d.citoyen.value in emails
                  && e == emails[d.citoyen.value] && e != "")
              || (d.etatInitial != Some(Perdu) && reclamantId.Some? && reclamantId.value in d.reclamePar
                  && reclamantId.value in emails && e == emails[reclamantId.value] && e != "")
  {
    var trouveur := if trouveurId.Some? && trouveurId.value in d.trouvePar then trouveurId else None;
    var reclamant :=
      if d.etatInitial == Some(Perdu) then d.citoyen
      else if reclamantId.Some? && reclamantId.value in d.reclamePar then reclamantId
      else None;
    Dedup(EmailOf(emails, trouveur) + EmailOf(emails, reclamant))
  }

  /**
   * For a found item, the finder passed on is the declarant, but it is looked
   * up among the reported finders: a declarant who is not one of them is not
   * notified, and only claimants can be.
   */
  lemma FoundItemDeclarantNotNotified(d: Declaration, trouveur: Option<UserId>, reclamantId: Option<UserId>,
                                       emails: map<UserId, string>)
    requires d.etatInitial == Some(Trouve) && d.citoyen.Some? && d.citoyen.value !in d.trouvePar
    ensures forall e :: e in PlanifierRecipients(d, PlannedFinder(d, trouveur), reclamantId, emails) ==>
              reclamantId.Some? && reclamantId.value in d.reclamePar && e == emails[reclamantId.value]
  {
  }
}
