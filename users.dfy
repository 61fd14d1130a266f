/**
 * Accounts and police stations (backend/users/models.py): only what the
 * item lifecycle reads of them.
 */
module Users {

  /** Account keys are auto-incremented from 1, so a key is never 0 (and never falsy). */
  type UserId = x: nat | x > 0 witness 1
  type StationId = nat

  /** `Utilisateur.role`: the three account kinds. */
  datatype Role = Admin | Policier | Citoyen

  /** The value stored in the `role` column. */
  function RoleValue(r: Role): string {
    match r
    case Admin => "admin"
    case Policier => "policier"
    case Citoyen => "citoyen"
  }

  /** An account: login name, unique address, role, and the ban flag the administrator views set. */
  datatype Utilisateur = Utilisateur(username: string, email: string, role: Role, estBanni: bool)

  /** `Utilisateur.__str__`: "<username> (<role>)". */
  function UtilisateurStr(u: Utilisateur): (s: string)
    ensures |s| >= |u.username| && s[..|u.username|] == u.username
    ensures s[|u.username|..] == " (" + RoleValue(u.role) + ")"
  {
    u.username + " (" + RoleValue(u.role) + ")"
  }
}
