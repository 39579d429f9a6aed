/** auth/scopes.py: tool scopes with amount caps, and the ceiling a parent sets for its clones. */
module Scopes {
  import opened Prelude

  const ADMIN := "admin"

  datatype Scope = Scope(category: string, connector: string, permission: string, resource: string, cap: Option<nat>)

  /** `parse_scope`: any partial reading of scope texts. */
  type Parser = string -> Option<Scope>

  /** What a call asks for. */
  datatype Need = Need(connector: string, permission: string, resource: string)

  datatype Reason = AdminScope | ScopeMatch | CapExceeded(cap: nat) | NoMatchingScope

  predicate IsAdmin(s: Scope, need: Need) {
    s.connector == need.connector && s.permission == ADMIN
  }

  predicate Exact(s: Scope, need: Need) {
    s.connector == need.connector && s.permission == need.permission && s.resource == need.resource
  }

  predicate Matches(s: Scope, need: Need) {
    IsAdmin(s, need) || Exact(s, need)
  }

  function NeedOf(s: Scope): Need {
    Need(s.connector, s.permission, s.resource)
  }

  /** The scope that decides: the first readable one that matches. */
  function Deciding(parse: Parser, scopes: seq<string>, need: Need): (r: Option<Scope>)
    ensures r.Some? ==> Matches(r.value, need)
  {
    if scopes == [] then None
    else
      var s := parse(scopes[0]);
      if s.Some? && Matches(s.value, need) then s else Deciding(parse, scopes[1..], need)
  }

  predicate Over(amount: Option<real>, cap: Option<nat>) {
    amount.Some? && cap.Some? && amount.value > cap.value as real
  }

  function Verdict(decider: Option<Scope>, need: Need, amount: Option<real>): (bool, Reason) {
    if decider.None? then (false, NoMatchingScope)
    else if IsAdmin(decider.value, need) then (true, AdminScope)
    else if Over(amount, decider.value.cap) then (false, CapExceeded(decider.value.cap.value))
    else (true, ScopeMatch)
  }

  predicate Allowed(parse: Parser, scopes: seq<string>, need: Need, amount: Option<real>) {
    Verdict(Deciding(parse, scopes, need), need, amount).0
  }

  /** `check_scope`, an early-return search. */
  method CheckScope(parse: Parser, granted: seq<string>, need: Need, amount: Option<real>) returns (allowed: bool, reason: Reason)
    ensures (allowed, reason) == Verdict(Deciding(parse, granted, need), need, amount)
  {
    for i := 0 to |granted|
      invariant Deciding(parse, granted, need) == Deciding(parse, granted[i..], need)
    {
      var parsed := parse(granted[i]);
      if parsed.None? {
        continue;
      }
      if parsed.value.connector == need.connector && parsed.value.permission == ADMIN {
        return true, AdminScope;
      }
      if Exact(parsed.value, need) {
        if parsed.value.cap.Some? && amount.Some? {
          if amount.value > parsed.value.cap.value as real {
            return false, CapExceeded(parsed.value.cap.value);
          }
        }
        return true, ScopeMatch;
      }
    }
    return false, NoMatchingScope;
  }

  // ----- clones -----

  datatype Violation = CapElevation(child: string, parent: string) | NotInParent(child: string)

  /** Python truthiness: a cap of zero is no cap here. */
  predicate Truthy(cap: Option<nat>) {
    cap.Some? && cap.value != 0
  }

  predicate Elevates(child: Scope, parent: Scope) {
    Exact(parent, NeedOf(child)) && Truthy(child.cap) && Truthy(parent.cap) && child.cap.value > parent.cap.value
  }

  /** The violation one child scope causes, if any. */
  function ViolationOf(parse: Parser, parents: seq<string>, text: string, child: Scope): Option<Violation> {
    if parents == [] then Some(NotInParent(text))
    else
      var p := parse(parents[0]);
      if p.None? || !Matches(p.value, NeedOf(child)) then ViolationOf(parse, parents[1..], text, child)
      else if Elevates(child, p.value) then Some(CapElevation(text, parents[0]))
      else None
  }

  function Violations(parse: Parser, parents: seq<string>, children: seq<string>): seq<Violation> {
    if children == [] then []
    else
      var before := Violations(parse, parents, children[..|children| - 1]);
      var text := children[|children| - 1];
      var v := if parse(text).None? then None else ViolationOf(parse, parents, text, parse(text).value);
      if v.Some? then before + [v.value] else before
  }

  /** `validate_clone_scopes`: nested loops over children and parents. */
  method ValidateCloneScopes(parse: Parser, parents: seq<string>, children: seq<string>) returns (violations: seq<Violation>)
    ensures violations == Violations(parse, parents, children)
  {
    violations := [];
    for i := 0 to |children|
      invariant violations == Violations(parse, parents, children[..i])
    {
      assert children[..i + 1][..i] == children[..i];
      var child := parse(children[i]);
      if child.None? {
        continue;
      }
      var foundParent := false;
      ghost var before := violations;
      for j := 0 to |parents|
        invariant !foundParent && violations == before
        invariant ViolationOf(parse, parents, children[i], child.value) == ViolationOf(parse, parents[j..], children[i], child.value)
      {
        var parent := parse(parents[j]);
        if parent.None? {
          continue;
        }
        if Exact(parent.value, NeedOf(child.value)) {
          if Truthy(child.value.cap) && Truthy(parent.value.cap) && child.value.cap.value > parent.value.cap.value {
            violations := violations + [CapElevation(children[i], parents[j])];
          }
          foundParent := true;
          break;
        }
        if parent.value.connector == child.value.connector && parent.value.permission == ADMIN {
          foundParent := true;
          break;
        }
      }
      if !foundParent {
        violations := violations + [NotInParent(children[i])];
      }
    }
    assert children[..|children|] == children;
  }

  /** A scope speaks for a call of its connector that it is an admin scope for, or whose permission and resource it names. */
  predicate SpeaksFor(s: Scope, need: Need) {
    s.connector == need.connector && (s.permission == "admin" || (s.permission == need.permission && s.resource == need.resource))
  }

  /** The scope at `i` is the first readable one that speaks for the call. */
  ghost predicate FirstMatch(parse: Parser, scopes: seq<string>, need: Need, i: int) {
    && 0 <= i < |scopes| && parse(scopes[i]).Some? && SpeaksFor(parse(scopes[i]).value, need)
    && forall j :: 0 <= j < i && parse(scopes[j]).Some? ==> !SpeaksFor(parse(scopes[j]).value, need)
  }

  lemma {:induction false} DecidingIsFirst(parse: Parser, scopes: seq<string>, need: Need) returns (i: int)
    ensures Deciding(parse, scopes, need).Some? ==> FirstMatch(parse, scopes, need, i) && Deciding(parse, scopes, need) == parse(scopes[i])
    ensures Deciding(parse, scopes, need).None? ==> forall j :: !FirstMatch(parse, scopes, need, j)
  {
    i := 0;
    if scopes != [] && !(parse(scopes[0]).Some? && Matches(parse(scopes[0]).value, need)) {
      i := DecidingIsFirst(parse, scopes[1..], need);
      i := i + 1;
      forall j | FirstMatch(parse, scopes, need, j) ensures FirstMatch(parse, scopes[1..], need, j - 1) {}
    }
  }

  /** What is allowed, exactly: the first scope that matches the call decides, an admin scope of the connector by
      letting anything through, any other by its cap. */
  lemma AllowedExactly(parse: Parser, scopes: seq<string>, need: Need, amount: Option<real>)
    ensures Allowed(parse, scopes, need, amount) <==>
            exists i :: FirstMatch(parse, scopes, need, i)
                        && var s := parse(scopes[i]).value;
                           (s.connector == need.connector && s.permission == "admin")
                           || (amount.Some? && s.cap.Some? ==> amount.value <= s.cap.value as real)
  {
    var i := DecidingIsFirst(parse, scopes, need);
    forall j | FirstMatch(parse, scopes, need, j) && FirstMatch(parse, scopes, need, i) ensures j == i {}
  }

  /** A clone is clean exactly when the first parent scope that matches each of its readable scopes is there and is
      not exceeded in its cap. */
  lemma CleanExactly(parse: Parser, parents: seq<string>, children: seq<string>)
    ensures Violations(parse, parents, children) == [] <==>
            forall i :: 0 <= i < |children| && parse(children[i]).Some? ==>
              var c := parse(children[i]).value;
              var p := Deciding(parse, parents, Need(c.connector, c.permission, c.resource));
              p.Some? && !(c.cap.Some? && p.value.cap.Some? && c.cap.value > p.value.cap.value > 0
                           && p.value.permission == c.permission && p.value.resource == c.resource)
  {
    forall i | 0 <= i < |children| && parse(children[i]).Some?
      ensures var child := parse(children[i]).value;
              var p := Deciding(parse, parents, NeedOf(child));
              ViolationOf(parse, parents, children[i], child) == None <==> p.Some? && !Elevates(child, p.value)
    {
      CleanChildExactly(parse, parents, children[i], parse(children[i]).value);
    }
    if forall i :: 0 <= i < |children| && parse(children[i]).Some? ==>
         ViolationOf(parse, parents, children[i], parse(children[i]).value) == None
    {
      CleanWhenEach(parse, parents, children);
    }
    if Violations(parse, parents, children) == [] {
      forall i | 0 <= i < |children| && parse(children[i]).Some?
        ensures ViolationOf(parse, parents, children[i], parse(children[i]).value) == None
      {
        CleanEach(parse, parents, children, i);
      }
    }
  }

  lemma {:induction false} CleanChildExactly(parse: Parser, parents: seq<string>, text: string, child: Scope)
    ensures var p := Deciding(parse, parents, NeedOf(child));
            ViolationOf(parse, parents, text, child) == None <==> p.Some? && !Elevates(child, p.value)
  {
    if parents != [] {
      CleanChildExactly(parse, parents[1..], text, child);
    }
  }

  lemma {:induction false} CleanWhenEach(parse: Parser, parents: seq<string>, children: seq<string>)
    requires forall i :: 0 <= i < |children| && parse(children[i]).Some? ==>
               ViolationOf(parse, parents, children[i], parse(children[i]).value) == None
    ensures Violations(parse, parents, children) == []
  {
    if children != [] {
      CleanWhenEach(parse, parents, children[..|children| - 1]);
    }
  }

  // ----- the ceiling -----

  lemma {:induction false} CleanEach(parse: Parser, parents: seq<string>, children: seq<string>, i: nat)
    requires Violations(parse, parents, children) == [] && i < |children| && parse(children[i]).Some?
    ensures ViolationOf(parse, parents, children[i], parse(children[i]).value) == None
  {
    if i < |children| - 1 {
      CleanEach(parse, parents, children[..|children| - 1], i);
    }
  }

  lemma {:induction false} DecidingIsGranted(parse: Parser, scopes: seq<string>, need: Need) returns (i: nat)
    requires Deciding(parse, scopes, need).Some?
    ensures i < |scopes| && parse(scopes[i]) == Deciding(parse, scopes, need)
  {
    var s := parse(scopes[0]);
    if s.Some? && Matches(s.value, need) {
      i := 0;
    } else {
      i := DecidingIsGranted(parse, scopes[1..], need);
      i := i + 1;
    }
  }

  /** An admin scope decides everything for its connector, if nothing before it does. */
  lemma {:induction false} AdminDecides(parse: Parser, scopes: seq<string>, need: Need, wide: Need)
    requires Deciding(parse, scopes, wide).Some? && IsAdmin(Deciding(parse, scopes, wide).value, need)
    ensures Deciding(parse, scopes, need).Some?
  {
    var s := parse(scopes[0]);
    if !(s.Some? && Matches(s.value, need)) && !(s.Some? && Matches(s.value, wide)) {
      AdminDecides(parse, scopes[1..], need, wide);
    }
  }

  /** Where the child has a deciding scope, so has the parent; and where the child's is not an admin scope, the
      parent's does not let it raise the cap. */
  lemma ParentDecides(parse: Parser, parents: seq<string>, children: seq<string>, need: Need)
    requires Violations(parse, parents, children) == [] && Deciding(parse, children, need).Some?
    ensures var c := Deciding(parse, children, need).value;
            var p := Deciding(parse, parents, need);
            p.Some? && (!IsAdmin(c, need) ==> !Elevates(c, p.value) && NeedOf(c) == need)
  {
    var i := DecidingIsGranted(parse, children, need);
    var c := parse(children[i]).value;
    CleanEach(parse, parents, children, i);
    CleanChildExactly(parse, parents, children[i], c);
    if IsAdmin(c, need) {
      AdminDecides(parse, parents, need, NeedOf(c));
    }
  }

  /** The scope ceiling without amounts: whatever a clean clone may do, its parent may do. */
  lemma Ceiling(parse: Parser, parents: seq<string>, children: seq<string>, need: Need)
    requires Violations(parse, parents, children) == [] && Allowed(parse, children, need, None)
    ensures Allowed(parse, parents, need, None)
  {
    ParentDecides(parse, parents, children, need);
  }

  predicate Unlimited(s: Scope, need: Need) {
    IsAdmin(s, need) || s.cap.None?
  }

  /** With amounts the ceiling can fail, and this is exactly when it holds: the parent's deciding scope is
      unlimited, or the child's is capped and not an admin scope, and a parent cap of zero is met by a child
      cap of zero. */
  lemma CeilingWithAmounts(parse: Parser, parents: seq<string>, children: seq<string>, need: Need)
    requires Violations(parse, parents, children) == [] && Deciding(parse, children, need).Some?
    ensures Deciding(parse, parents, need).Some?
    ensures var c, p := Deciding(parse, children, need).value, Deciding(parse, parents, need).value;
            (forall a: real :: Allowed(parse, children, need, Some(a)) ==> Allowed(parse, parents, need, Some(a))) <==>
            Unlimited(p, need) || (!Unlimited(c, need) && (p.cap.value > 0 || c.cap.value == 0))
  {
    ParentDecides(parse, parents, children, need);
    var c, p := Deciding(parse, children, need).value, Deciding(parse, parents, need).value;
    if !Unlimited(p, need) {
      var high := p.cap.value as real + 1.0;
      if Unlimited(c, need) {
        assert Allowed(parse, children, need, Some(high)) && !Allowed(parse, parents, need, Some(high));
      } else if p.cap.value == 0 && c.cap.value > 0 {
        var a := c.cap.value as real;
        assert Allowed(parse, children, need, Some(a)) && !Allowed(parse, parents, need, Some(a));
      }
    }
  }

  /** A clone that keeps only the parent's admin scope escapes the cap on the parent's earlier scope. */
  lemma AdminCloneEscapesCap(parse: Parser)
    requires parse("c") == Some(Scope("tool", "x", "write", "r", Some(100))) && parse("a") == Some(Scope("tool", "x", ADMIN, "", None))
    ensures Violations(parse, ["c", "a"], ["a"]) == []
    ensures var need := Need("x", "write", "r");
            Allowed(parse, ["a"], need, Some(101.0)) && !Allowed(parse, ["c", "a"], need, Some(101.0))
  {
    assert "write"[0] != ADMIN[0] && ["c", "a"][1..] == ["a"] && ["a"][..0] == [];
  }
}
