/**
 Role grants of the form `name:perms` (src/roles.rs). Lower-casing is a parameter, so the results
 hold for Unicode case folding as well as for ASCII.
 */
module Roles {
  import opened Wrappers
  import opened Text

  type Lower = string -> string

  /** A JSON value as far as the role list is concerned. */
  datatype Value = Text(s: string) | Other

  // --- Parsing -------------------------------------------------------------

  datatype Grant = Grant(name: string, perms: string)

  function ParseUserRoleGrant(lower: Lower, userRole: string): Option<Grant> {
    var trimmed := Trim(userRole);
    if trimmed == "" then None
    else
      var grant := match SplitOnce(trimmed, ':')
        case Some((name, perms)) => Grant(Trim(name), lower(Trim(perms)))
        case None => Grant(trimmed, "");
      if grant.name == "" then None else Some(grant)
  }

  /** The name an endpoint role stands for; only a blank role stands for none. */
  function EndpointName(role: string): Option<string> {
    var trimmed := Trim(role);
    if trimmed == "" then None
    else
      match SplitOnce(trimmed, ':')
      case Some((name, _)) => Some(Trim(name))
      case None => Some(trimmed)
  }

  // --- The specification ---------------------------------------------------

  /** Some endpoint role and this user role name the same role, ignoring case. */
  predicate Matches(lower: Lower, endpointRoles: seq<string>, userRole: string) {
    var grant := ParseUserRoleGrant(lower, userRole);
    grant.Some? && exists e | e in endpointRoles :: NamesRole(lower, e, grant.value.name)
  }

  predicate NamesRole(lower: Lower, endpointRole: string, name: string) {
    var wanted := EndpointName(endpointRole);
    wanted.Some? && lower(wanted.value) == lower(name)
  }

  predicate Permits(lower: Lower, endpointRoles: seq<string>, userRole: string, letter: char) {
    && Matches(lower, endpointRoles, userRole)
    && letter in ParseUserRoleGrant(lower, userRole).value.perms
  }

  datatype Decision = Decision(hasRole: bool, canRead: bool, canWrite: bool) {
    function Or(other: Decision): Decision {
      Decision(hasRole || other.hasRole, canRead || other.canRead, canWrite || other.canWrite)
    }
  }

  function Decide(lower: Lower, endpointRoles: seq<string>, userRoles: seq<string>): Decision {
    Decision(
      exists u | u in userRoles :: Matches(lower, endpointRoles, u),
      exists u | u in userRoles :: Permits(lower, endpointRoles, u, 'r'),
      exists u | u in userRoles :: Permits(lower, endpointRoles, u, 'w'))
  }

  // --- The loops -----------------------------------------------------------

  ghost function AllowedNames(lower: Lower, endpointRoles: seq<string>): set<string> {
    set e | e in endpointRoles && EndpointName(e).Some? :: lower(EndpointName(e).value)
  }

  lemma AllowedExtends(lower: Lower, endpointRoles: seq<string>, i: nat)
    requires i < |endpointRoles|
    ensures AllowedNames(lower, endpointRoles[..i + 1]) ==
            var wanted := EndpointName(endpointRoles[i]);
            AllowedNames(lower, endpointRoles[..i]) + if wanted.Some? then {lower(wanted.value)} else {}
  {
    assert endpointRoles[..i + 1] == endpointRoles[..i] + [endpointRoles[i]];
    assert forall e :: e in endpointRoles[..i + 1] <==> e in endpointRoles[..i] || e == endpointRoles[i];
  }

  lemma AllowedMatches(lower: Lower, endpointRoles: seq<string>, userRoles: seq<string>)
    ensures forall u | u in userRoles ::
              Matches(lower, endpointRoles, u) <==>
              var grant := ParseUserRoleGrant(lower, u);
              grant.Some? && lower(grant.value.name) in AllowedNames(lower, endpointRoles)
  {
  }

  method GetRole(lower: Lower, endpointRoles: seq<string>, userRoles: seq<string>)
    returns (hasRole: bool, canRead: bool, canWrite: bool)
    ensures Decision(hasRole, canRead, canWrite) == Decide(lower, endpointRoles, userRoles)
  {
    hasRole, canRead, canWrite := false, false, false;
    if |endpointRoles| == 0 || |userRoles| == 0 {
      return;
    }

    var allowed: set<string> := {};
    for i := 0 to |endpointRoles|
      invariant allowed == AllowedNames(lower, endpointRoles[..i])
    {
      AllowedExtends(lower, endpointRoles, i);
      var role := Trim(endpointRoles[i]);
      if role != "" {
        var parts := SplitOnce(role, ':');
        if parts.Some? {
          role := Trim(parts.value.0);
        }
        allowed := allowed + {lower(role)};
      }
    }
    assert endpointRoles[..|endpointRoles|] == endpointRoles;
    AllowedMatches(lower, endpointRoles, userRoles);
    if allowed == {} {
      return;
    }

    for i := 0 to |userRoles|
      invariant Decision(hasRole, canRead, canWrite) == Decide(lower, endpointRoles, userRoles[..i])
    {
      DecideAppend(lower, endpointRoles, userRoles[..i], [userRoles[i]]);
      DecideSingle(lower, endpointRoles, userRoles[i]);
      assert userRoles[..i + 1] == userRoles[..i] + [userRoles[i]];
      var parsed := ParseUserRoleGrant(lower, userRoles[i]);
      if parsed.Some? && lower(parsed.value.name) in allowed {
        hasRole := true;
        if 'r' in parsed.value.perms {
          canRead := true;
        }
        if 'w' in parsed.value.perms {
          canWrite := true;
        }
      }
    }
    assert userRoles[..|userRoles|] == userRoles;
  }

  lemma DecideSingle(lower: Lower, endpointRoles: seq<string>, userRole: string)
    ensures Decide(lower, endpointRoles, [userRole]) ==
            Decision(Matches(lower, endpointRoles, userRole),
                     Permits(lower, endpointRoles, userRole, 'r'),
                     Permits(lower, endpointRoles, userRole, 'w'))
  {
    assert userRole in [userRole];
  }

  // --- What the decision means for a list of grants --------------------------

  /** The decision on two lists together is the pointwise or of the decisions on each. */
  lemma DecideAppend(lower: Lower, endpointRoles: seq<string>, a: seq<string>, b: seq<string>)
    ensures Decide(lower, endpointRoles, a + b) == Decide(lower, endpointRoles, a).Or(Decide(lower, endpointRoles, b))
  {
    assert forall u :: u in a + b <==> u in a || u in b;
  }

  /** Order and repetition do not matter, on either side. */
  lemma DecideIgnoresOrder(lower: Lower, e1: seq<string>, e2: seq<string>, u1: seq<string>, u2: seq<string>)
    requires forall e :: e in e1 <==> e in e2
    requires forall u :: u in u1 <==> u in u2
    ensures Decide(lower, e1, u1) == Decide(lower, e2, u2)
  {
    forall u
      ensures Matches(lower, e1, u) == Matches(lower, e2, u)
      ensures forall letter :: Permits(lower, e1, u, letter) == Permits(lower, e2, u, letter)
    {
    }
  }

  // --- What the texts mean -------------------------------------------------------

  /** A text before a colon, or on its own. */
  function WithSuffix(head: string, tail: Option<string>): string {
    if tail.None? then head else head + ":" + tail.value
  }

  lemma SplitSuffix(head: string, tail: Option<string>)
    requires ':' !in head
    ensures var text := Trim(WithSuffix(head, tail));
            && (tail.None? ==> text == Trim(head) && SplitOnce(text, ':') == None)
            && (tail.Some? ==> text != "" && SplitOnce(text, ':') == Some((TrimStart(head), TrimEnd(tail.value))))
  {
    hide Trim, SplitOnce;
    if tail.None? {
      var lead, trail := TrimStrips(head);
      SplitOnceInverse(Trim(head), ':');
    } else {
      TrimAround(head, ':', tail.value);
      var lead := TrimStartStrips(head);
      SplitOnceAt(TrimStart(head), TrimEnd(tail.value), ':');
    }
  }

  /**
   The decision on one endpoint role and one grant, for every text of either: the name is what stands before
   the first colon and the permissions what stands after it, both trimmed; names compare ignoring case; a grant
   without a name matches nothing, one without permissions permits nothing; a blank endpoint role asks nothing.
   */
  lemma GrantDecision(
    lower: Lower, wanted: string, suffix: Option<string>, name: string, perms: Option<string>)
    requires ':' !in wanted && ':' !in name
    ensures var hasRole := Trim(name) != "" && (suffix.Some? || Trim(wanted) != "") && lower(Trim(wanted)) == lower(Trim(name));
            Decide(lower, [WithSuffix(wanted, suffix)], [WithSuffix(name, perms)]) ==
            Decision(hasRole,
                     hasRole && perms.Some? && 'r' in lower(Trim(perms.value)),
                     hasRole && perms.Some? && 'w' in lower(Trim(perms.value)))
  {
    hide Trim, SplitOnce, WithSuffix, Decide;
    var e, u := WithSuffix(wanted, suffix), WithSuffix(name, perms);
    SplitSuffix(wanted, suffix);
    SplitSuffix(name, perms);
    TrimAgain(wanted);
    TrimAgain(name);
    if perms.Some? {
      TrimAgain(perms.value);
    }
    DecideSingle(lower, [e], u);
    assert e in [e];
    assert Matches(lower, [e], u) <==> ParseUserRoleGrant(lower, u).Some? && NamesRole(lower, e, ParseUserRoleGrant(lower, u).value.name);
  }

  /** Every text is of that form. */
  lemma EveryTextSplits(text: string) returns (head: string, tail: Option<string>)
    ensures ':' !in head && text == WithSuffix(head, tail)
  {
    SplitOnceInverse(text, ':');
    match SplitOnce(text, ':')
    case None => head, tail := text, None;
    case Some((a, b)) => head, tail := a, Some(b);
  }

  // --- The stored role list ------------------------------------------------

  /** String entries that are not blank, trimmed, in order. */
  function FormatRoles(roles: seq<Value>): seq<string> {
    if roles == [] then []
    else
      var rest := FormatRoles(roles[1..]);
      if roles[0].Text? && Trim(roles[0].s) != "" then [Trim(roles[0].s)] + rest else rest
  }

  function Strings(roles: seq<Value>): seq<string> {
    if roles == [] then []
    else if roles[0].Text? then [roles[0].s] + Strings(roles[1..])
    else Strings(roles[1..])
  }

  lemma GrantOfTrimmed(lower: Lower, role: string)
    ensures ParseUserRoleGrant(lower, Trim(role)) == ParseUserRoleGrant(lower, role)
  {
    hide Trim, SplitOnce;
    TrimAgain(role);
  }

  /** Trimming and dropping blanks first never changes the decision. */
  lemma {:induction false} DecideFormatted(lower: Lower, endpointRoles: seq<string>, roles: seq<Value>)
    ensures Decide(lower, endpointRoles, FormatRoles(roles)) == Decide(lower, endpointRoles, Strings(roles))
  {
    if roles != [] {
      DecideFormatted(lower, endpointRoles, roles[1..]);
      if roles[0].Text? {
        var s := roles[0].s;
        GrantOfTrimmed(lower, s);
        DecideSingle(lower, endpointRoles, s);
        DecideSingle(lower, endpointRoles, Trim(s));
        DecideAppend(lower, endpointRoles, [s], Strings(roles[1..]));
        DecideAppend(lower, endpointRoles, [Trim(s)], FormatRoles(roles[1..]));
      }
    }
  }
}
