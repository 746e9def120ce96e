/** The three roles of the system and the predicate every protected page uses to
    decide whether a stored role is acceptable. */
module Roles {
  import opened Browser

  /** `validRoles`: manager, technician, auditor. */
  const ValidRoles: seq<string> := ["gerente", "tecnico", "auditor"]

  /** `Role`: exactly the strings listed in `ValidRoles`. */
  type Role = r: string | r in ValidRoles witness "gerente"

  /** `isValidRole(role)`: the role is present, non-empty and one of `ValidRoles`,
      compared by exact string equality. */
  predicate IsValidRole(role: Option<string>)
    ensures IsValidRole(role) <==> role == Some("gerente") || role == Some("tecnico") || role == Some("auditor")
    ensures IsValidRole(role) ==> role.value in ValidRoles
  {
    Truthy(role) && role.value in ValidRoles
  }

  /** `validRoles` has three pairwise-distinct entries. */
  lemma ValidRolesDistinct()
    ensures |ValidRoles| == 3
    ensures forall i, j :: 0 <= i < j < |ValidRoles| ==> ValidRoles[i] != ValidRoles[j]
  {
  }

  /** Matching is exact: neither a missing role, the empty string, a role padded with a
      space on either side, nor a role with its first letter capitalised is accepted. */
  lemma ExactMatchOnly(r: Role)
    ensures !IsValidRole(None) && !IsValidRole(Some(""))
    ensures !IsValidRole(Some(" " + r)) && !IsValidRole(Some(r + " "))
    ensures !IsValidRole(Some([Capitalise(r[0])] + r[1..]))
  {
    var capital := [Capitalise(r[0])] + r[1..];
    assert 'a' <= r[0] <= 'z';
    assert capital[0] == Capitalise(r[0]);
  }

  /** Upper-case version of a lower-case ASCII letter; other characters are unchanged. */
  function Capitalise(c: char): (u: char)
    ensures 'a' <= c <= 'z' ==> 'A' <= u <= 'Z'
  {
    if 'a' <= c <= 'z' then (c as int - 32) as char else c
  }
}
