/** User groups (api/api.go: UserGroup): an integer code with a display
    colour and a display name. Only seven codes are defined; any other code
    is a programming error, so both lookups require a known code. */
module UserGroups {

  const GroupGreen: int := 0
  const GroupOrange: int := 1
  const GroupBrown: int := 2
  const GroupAdmin: int := 5
  const GroupBanned: int := 1001
  const GroupDeleted: int := 1002
  const GroupClient: int := 2001

  /** The codes the lookups are defined on; any other code panics. */
  predicate IsKnown(u: int)
  {
    u == GroupGreen || u == GroupOrange || u == GroupBrown || u == GroupAdmin
    || u == GroupBanned || u == GroupDeleted || u == GroupClient
  }

  /** The display colour: a `#RRGGBB` string of upper-case hex digits. */
  function Color(u: int): (c: string)
    requires IsKnown(u)
    ensures |c| == 7 && c[0] == '#'
    ensures forall i :: 1 <= i < 7 ==> c[i] in "0123456789ABCDEF"
    ensures c == "#339933" <==> u == GroupGreen || u == GroupOrange
    ensures c == "#999999" <==> u == GroupBanned || u == GroupDeleted
  {
    if u == GroupGreen then "#339933"
    else if u == GroupOrange then "#339933"
    else if u == GroupBrown then "#BB0000"
    else if u == GroupAdmin then "#000000"
    else if u == GroupBanned || u == GroupDeleted then "#999999"
    else "#3F6FA0"
  }

  /** The display name, in Polish. */
  function Name(u: int): (n: string)
    requires IsKnown(u)
    ensures n != ""
  {
    if u == GroupGreen then "Zielony"
    else if u == GroupOrange then "Pomarańczowy"
    else if u == GroupBrown then "Bordowy"
    else if u == GroupAdmin then "Administrator"
    else if u == GroupBanned then "Zbanowany"
    else if u == GroupDeleted then "Usunięty"
    else "Klient"
  }

  /** Distinct groups have distinct names. */
  lemma NameInjective(u: int, v: int)
    requires IsKnown(u) && IsKnown(v)
    ensures Name(u) == Name(v) <==> u == v
  {
  }

  /** Distinct groups share a colour exactly when both are green/orange or
      both are banned/deleted. */
  lemma SharedColors(u: int, v: int)
    requires IsKnown(u) && IsKnown(v) && u != v
    ensures Color(u) == Color(v) <==>
      ({u, v} == {GroupGreen, GroupOrange} || {u, v} == {GroupBanned, GroupDeleted})
  {
  }
}
