/** The family screen's display rules: role colours, role labels and the gender line. */
module Family {
  import opened Wrappers

  /** The badge colour of each known role. */
  const RoleColors: map<string, string> := map[
    "primary" := "#0f4c8b",
    "spouse" := "#f59e0b",
    "child" := "#8b5cf6",
    "dependent" := "#ec4899"
  ]

  /** The colour of any other role. */
  const FallbackColor := "#6b7280"

  /** The label of each known role. */
  const RoleLabels: map<string, string> := map[
    "primary" := "Primary Member",
    "spouse" := "Spouse",
    "child" := "Child",
    "dependent" := "Dependent"
  ]

  /** `getRoleColor`: the role's colour, or the grey fallback. */
  function RoleColor(role: string): string
  {
    if role in RoleColors && RoleColors[role] != "" then RoleColors[role] else FallbackColor
  }

  /** Each known role has its own colour; every other role is grey. */
  lemma RoleColorCases(role: string)
    ensures role == "primary" ==> RoleColor(role) == "#0f4c8b"
    ensures role == "spouse" ==> RoleColor(role) == "#f59e0b"
    ensures role == "child" ==> RoleColor(role) == "#8b5cf6"
    ensures role == "dependent" ==> RoleColor(role) == "#ec4899"
    ensures role !in {"primary", "spouse", "child", "dependent"} ==> RoleColor(role) == "#6b7280"
  {
  }

  /** `toUpperCase` on one character, for the ASCII letters. */
  function ToUpper(c: char): char
  {
    if 'a' <= c <= 'z' then (c as int - 32) as char else c
  }

  /** `s.charAt(0).toUpperCase() + s.slice(1)`. */
  function Capitalize(s: string): (r: string)
    ensures |r| == |s|
    ensures s != [] ==> r[0] == ToUpper(s[0]) && r[1..] == s[1..]
    ensures s != [] ==> !('a' <= r[0] <= 'z')
  {
    if s == [] then [] else [ToUpper(s[0])] + s[1..]
  }

  /** Capitalising twice is capitalising once. */
  lemma CapitalizeIdempotent(s: string)
    ensures Capitalize(Capitalize(s)) == Capitalize(s)
  {
  }

  /** `getRoleLabel`: the role's label, or the role with its first letter in upper case. */
  function RoleLabel(role: string): string
  {
    if role in RoleLabels && RoleLabels[role] != "" then RoleLabels[role] else Capitalize(role)
  }

  /** Each known role has its label; any other role is shown capitalised, the empty role as ''. */
  lemma RoleLabelCases(role: string)
    ensures role == "primary" ==> RoleLabel(role) == "Primary Member"
    ensures role == "spouse" ==> RoleLabel(role) == "Spouse"
    ensures role == "child" ==> RoleLabel(role) == "Child"
    ensures role == "dependent" ==> RoleLabel(role) == "Dependent"
    ensures role !in {"primary", "spouse", "child", "dependent"} ==> RoleLabel(role) == Capitalize(role)
    ensures role !in {"primary", "spouse", "child", "dependent"} && role != [] ==>
      |RoleLabel(role)| == |role| && RoleLabel(role)[0] == ToUpper(role[0]) && RoleLabel(role)[1..] == role[1..]
    ensures role == "" ==> RoleLabel(role) == ""
  {
  }

  /** An unknown role that already starts with a capital is shown as it is. */
  lemma UnknownCapitalisedRoleUnchanged(role: string)
    requires role !in RoleLabels && role != [] && !('a' <= role[0] <= 'z')
    ensures RoleLabel(role) == role
  {
    assert [role[0]] + role[1..] == role;
  }

  /** The gender line: shown only for a non-empty gender, capitalised like a role. */
  function GenderText(gender: Option<string>): (r: Option<string>)
    ensures r.Some? <==> gender.Some? && gender.value != ""
    ensures r.Some? ==> r.value == Capitalize(gender.value)
  {
    if gender.Some? && gender.value != "" then Some(Capitalize(gender.value)) else None
  }
}
