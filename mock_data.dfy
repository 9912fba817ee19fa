/** The fixed credential list the sign-in form looks users up in (src/utils/mockData.ts). */
module MockData {

  /** The role union "admin" | "tester". */
  datatype Role = Admin | Tester

  function RoleName(r: Role): string {
    match r
    case Admin => "admin"
    case Tester => "tester"
  }

  datatype User = User(email: string, password: string, role: Role)

  const Users: seq<User> := [
    User("admin@testmagic.com", "admin123", Admin),
    User("tester@testmagic.com", "tester123", Tester)
  ]

  /** Two records: the admin one first, then the tester one; no two share an email. */
  lemma CredentialList()
    ensures |Users| == 2
    ensures Users[0] == User("admin@testmagic.com", "admin123", Admin)
    ensures Users[1] == User("tester@testmagic.com", "tester123", Tester)
    ensures forall i, j :: 0 <= i < j < |Users| ==> Users[i].email != Users[j].email
  {
  }

  /** Every role name is one of the two the union allows, and they differ. */
  lemma RoleNames(r: Role, q: Role)
    ensures RoleName(r) == "admin" || RoleName(r) == "tester"
    ensures RoleName(r) == RoleName(q) <==> r == q
    ensures RoleName(r) != ""
  {
  }
}
