/** The field-role heuristic every builder and the preview use: a column is
    the vulnerability-name column when its lower-cased name contains both
    "vulnerability" and "name", the severity column when it contains
    "severity", the status column when it contains "status"; a builder
    takes the first column of its list with that role. */
module FieldRoles {
  import opened Common
  import opened Types

  datatype Role = NameRole | SeverityRole | StatusRole

  predicate HasRole(name: string, role: Role) {
    var l := Lower(name);
    match role
    case NameRole => Contains(l, "vulnerability") && Contains(l, "name")
    case SeverityRole => Contains(l, "severity")
    case StatusRole => Contains(l, "status")
  }

  /** `fields.find(f => HasRole(f.name, role))`: the first field with the
      role, or none when no field has it. */
  function FindRole(fields: seq<FieldData>, role: Role): (r: Option<FieldData>)
    ensures r.None? <==> forall i :: 0 <= i < |fields| ==> !HasRole(fields[i].name, role)
    ensures r.Some? ==> exists i :: 0 <= i < |fields| && fields[i] == r.value &&
                          HasRole(r.value.name, role) &&
                          forall j :: 0 <= j < i ==> !HasRole(fields[j].name, role)
  {
    if |fields| == 0 then None
    else if HasRole(fields[0].name, role) then Some(fields[0])
    else
      var r := FindRole(fields[1..], role);
      assert forall i :: 1 <= i < |fields| ==> fields[i] == fields[1..][i - 1];
      r
  }

  /** `found?.name === name`: whether a column shares the name of the
      column found for a role (false when none was found). */
  predicate SameNameAs(found: Option<FieldData>, name: string) {
    found.Some? && found.value.name == name
  }

  /** `fields.find(f => f.include && HasRole(f.name, role))`. */
  function FindIncludedRole(fields: seq<FieldData>, role: Role): (r: Option<FieldData>)
    ensures r.Some? ==> r.value in fields && r.value.included && HasRole(r.value.name, role)
  {
    if |fields| == 0 then None
    else if fields[0].included && HasRole(fields[0].name, role) then Some(fields[0])
    else FindIncludedRole(fields[1..], role)
  }

  /** Looking for a role inside the selection finds the same column as
      looking for the first included column with that role. */
  lemma {:induction false} FindRoleInIncluded(fields: seq<FieldData>, role: Role)
    ensures FindRole(Included(fields), role) == FindIncludedRole(fields, role)
  {
    if |fields| > 0 {
      FindRoleInIncluded(fields[1..], role);
      var tail := Included(fields[1..]);
      if fields[0].included {
        var s := [fields[0]] + tail;
        assert Included(fields) == s;
        assert s[0] == fields[0] && s[1..] == tail;
      } else {
        assert Included(fields) == [] + tail == tail;
      }
    }
  }

  /** The columns found for the three roles among the included fields. */
  datatype Roles = Roles(name: Option<FieldData>, severity: Option<FieldData>, status: Option<FieldData>)

  function RolesOf(included: seq<FieldData>): Roles {
    Roles(FindRole(included, NameRole), FindRole(included, SeverityRole), FindRole(included, StatusRole))
  }

  /** A field is rendered in the generic way unless it shares its name with
      the name, severity or status column. */
  predicate IsOtherField(f: FieldData, roles: Roles) {
    !SameNameAs(roles.name, f.name) && !SameNameAs(roles.severity, f.name) && !SameNameAs(roles.status, f.name)
  }
}
