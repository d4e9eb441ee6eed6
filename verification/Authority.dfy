/**
 Host policies under exact-or-dot-suffix matching, and the authority a sub-agent gets.
 Hosts are taken as already normalised.
 */
module HostPolicies {

  predicate EndsWith(host: string, suffix: string) {
    |suffix| <= |host| && host[|host| - |suffix|..] == suffix
  }

  /** `allowed` covers the host itself and everything below it. */
  predicate Covers(allowed: string, host: string) {
    host == allowed || EndsWith(host, "." + allowed)
  }

  predicate PermitsHost(hosts: set<string>, host: string) {
    exists allowed :: allowed in hosts && Covers(allowed, host)
  }

  lemma SuffixOfSuffix(host: string, long: string, short: string)
    requires EndsWith(host, long) && EndsWith(host, short) && |short| <= |long|
    ensures EndsWith(long, short)
  {
  }

  lemma CoversTransitive(a: string, b: string, c: string)
    requires Covers(a, b) && Covers(b, c)
    ensures Covers(a, c)
  {
  }

  /** Two allowed names that cover one host lie on one chain of domains. */
  lemma CoversLinear(a: string, b: string, host: string)
    requires Covers(a, host) && Covers(b, host) && |a| <= |b|
    ensures Covers(a, b)
  {
    if b != a && host != b && host != a {
      SuffixOfSuffix(host, "." + b, "." + a);
      DropDot(a, b);
    }
  }

  /** A dotted suffix of a dotted name: the name itself, or a dotted suffix of it. */
  lemma DropDot(a: string, b: string)
    requires EndsWith("." + b, "." + a)
    ensures a == b || EndsWith(b, "." + a)
  {
    if |a| == |b| {
      assert ("." + b)[0..] == "." + b && ("." + b)[1..] == b && ("." + a)[1..] == a;
    } else {
      assert ("." + b)[|b| - |a|..] == b[|b| - |a| - 1..];
    }
  }

  lemma CoversIsShorter(a: string, b: string)
    requires Covers(a, b)
    ensures |a| <= |b| && (|a| == |b| ==> a == b)
  {
  }

  /** Which of a pair of names the intersection keeps: the narrower one, if they are related. */
  ghost predicate Meets(r: string, c: string, h: string) {
    (Covers(c, r) && h == r) || (!Covers(c, r) && Covers(r, c) && h == c)
  }

  /** The nested loops of the source, over sets in any order. */
  method IntersectHostPolicies(requested: set<string>, ceiling: set<string>) returns (intersection: set<string>)
    ensures intersection == Intersection(requested, ceiling)
  {
    intersection := {};
    var rs := requested;
    while rs != {}
      invariant rs <= requested
      invariant forall h :: h in intersection <==> InIntersection(requested - rs, ceiling, h)
    {
      var r :| r in rs;
      var cs := ceiling;
      ghost var before := intersection;
      while cs != {}
        invariant cs <= ceiling
        invariant forall h :: h in intersection <==> h in before || InRow(r, ceiling - cs, h)
      {
        var c :| c in cs;
        assert ceiling - (cs - {c}) == ceiling - cs + {c};
        assert forall h :: InRow(r, ceiling - (cs - {c}), h) <==> InRow(r, ceiling - cs, h) || Meets(r, c, h);
        if r == c || EndsWith(r, "." + c) {
          intersection := intersection + {r};
        } else if EndsWith(c, "." + r) {
          intersection := intersection + {c};
        }
        cs := cs - {c};
      }
      assert forall h :: InIntersection(requested - (rs - {r}), ceiling, h) <==>
        InIntersection(requested - rs, ceiling, h) || InRow(r, ceiling, h);
      rs := rs - {r};
    }
  }

  ghost predicate InRow(r: string, ceiling: set<string>, h: string) {
    exists c :: c in ceiling && Meets(r, c, h)
  }

  ghost predicate InIntersection(requested: set<string>, ceiling: set<string>, h: string) {
    exists r, c :: r in requested && c in ceiling && Meets(r, c, h)
  }

  /** The value the method computes. */
  ghost function Intersection(requested: set<string>, ceiling: set<string>): (i: set<string>)
    ensures forall h :: h in i <==> InIntersection(requested, ceiling, h)
  {
    set h | h in requested + ceiling && InIntersection(requested, ceiling, h)
  }

  /** The intersection permits exactly what both policies permit. */
  lemma IntersectionIsConjunction(requested: set<string>, ceiling: set<string>, host: string)
    ensures PermitsHost(Intersection(requested, ceiling), host) <==> PermitsHost(requested, host) && PermitsHost(ceiling, host)
  {
    var i := Intersection(requested, ceiling);
    if PermitsHost(i, host) {
      var h :| h in i && Covers(h, host);
      var r, c :| r in requested && c in ceiling && Meets(r, c, h);
      CoversTransitive(r, h, host);
      CoversTransitive(c, h, host);
    }
    if PermitsHost(requested, host) && PermitsHost(ceiling, host) {
      var r :| r in requested && Covers(r, host);
      var c :| c in ceiling && Covers(c, host);
      if |c| <= |r| {
        CoversLinear(c, r, host);
        assert Meets(r, c, r) && r in i;
      } else {
        CoversLinear(r, c, host);
        if Covers(c, r) { CoversIsShorter(c, r); }
        assert Meets(r, c, c) && c in i;
      }
    }
  }

  lemma IntersectionCommutes(a: set<string>, b: set<string>)
    ensures Intersection(a, b) == Intersection(b, a)
  {
  }

  /** Resuming narrows again by the same ceiling: nothing changes. */
  lemma IntersectionStable(requested: set<string>, ceiling: set<string>)
    ensures Intersection(Intersection(requested, ceiling), ceiling) == Intersection(requested, ceiling)
  {
  }
}

/** Capabilities and hosts through skills, resumptions and spawned sub-agents. */
module Authority {
  import opened Basics
  import opened HostPolicies

  datatype Capability =
    | FsRead | FsWrite | Exec | NetShell | NetBrowser | EmailRead | EmailSend | CalendarRead | CalendarWrite
    | Vision | ResearchRead | QaBrowser | MemoryRead | MemoryWrite | TaskSpawn

  datatype Grant = Grant(capabilities: set<Capability>, hosts: set<string>)

  /** A skill always bounds capabilities; it bounds hosts only if it names some policy. */
  datatype Skill = Skill(capabilities: set<Capability>, hosts: Option<set<string>>)

  /** What a run resolves: the request, narrowed by the skill if there is one. */
  ghost function Resolve(requested: Grant, skill: Option<Skill>): Grant {
    match skill
    case None => requested
    case Some(Skill(capabilities, hosts)) =>
      Grant(requested.capabilities * capabilities,
            match hosts case None => requested.hosts case Some(h) => Intersection(requested.hosts, h))
  }

  predicate NeedsDestination(c: Capability) { c == NetShell || c == NetBrowser }

  /** What a sub-agent is created with, or None when the delegation is blocked. */
  function Delegate(parent: Grant, asked: Grant): Option<Grant> {
    var capabilities := asked.capabilities * parent.capabilities;
    var hosts := set h | h in asked.hosts && PermitsHost(parent.hosts, h);
    if capabilities * {NetShell, NetBrowser} != {} && hosts == {} then None
    else Some(Grant(capabilities, hosts))
  }

  /** Narrower: fewer capabilities, and every reachable host is one the other may reach. */
  ghost predicate Within(a: Grant, b: Grant) {
    a.capabilities <= b.capabilities && forall host :: PermitsHost(a.hosts, host) ==> PermitsHost(b.hosts, host)
  }

  ghost predicate WithinSkill(g: Grant, skill: Skill) {
    && g.capabilities <= skill.capabilities
    && (skill.hosts.Some? ==> forall host :: PermitsHost(g.hosts, host) ==> PermitsHost(skill.hosts.value, host))
  }

  /** Exactly what both allow, no more; and resuming resolves to the same grant. */
  lemma ResolveNarrows(requested: Grant, skill: Skill)
    ensures var g := Resolve(requested, Some(skill));
            && Within(g, requested) && WithinSkill(g, skill)
            && (forall host :: PermitsHost(g.hosts, host) <==>
                  PermitsHost(requested.hosts, host) && (skill.hosts.Some? ==> PermitsHost(skill.hosts.value, host)))
            && Resolve(g, Some(skill)) == g
  {
    if skill.hosts.Some? {
      forall host ensures PermitsHost(Intersection(requested.hosts, skill.hosts.value), host) <==>
                          PermitsHost(requested.hosts, host) && PermitsHost(skill.hosts.value, host) {
        IntersectionIsConjunction(requested.hosts, skill.hosts.value, host);
      }
      IntersectionStable(requested.hosts, skill.hosts.value);
    }
    assert requested.capabilities * skill.capabilities * skill.capabilities == requested.capabilities * skill.capabilities;
  }

  lemma DelegateNarrows(parent: Grant, asked: Grant)
    requires Delegate(parent, asked).Some?
    ensures Within(Delegate(parent, asked).value, parent)
  {
  }

  /**
   The grant of the agent at the end of a path of delegations: each request is made of
   the agent before it. None: some delegation on the way was blocked.
   */
  function GrantAt(root: Grant, path: seq<Grant>): Option<Grant> {
    if path == [] then Some(root)
    else
      match GrantAt(root, Front(path))
      case None => None
      case Some(parent) => Delegate(parent, Last(path))
  }

  /** Every descendant, at any depth, stays within each of its ancestors. */
  lemma {:induction false} DescendantWithinAncestors(root: Grant, path: seq<Grant>, k: nat)
    requires k <= |path| && GrantAt(root, path).Some?
    ensures GrantAt(root, path[..k]).Some? && Within(GrantAt(root, path).value, GrantAt(root, path[..k]).value)
  {
    if k == |path| {
      assert path[..k] == path;
    } else {
      DescendantWithinAncestors(root, Front(path), k);
      assert Front(path)[..k] == path[..k];
      DelegateNarrows(GrantAt(root, Front(path)).value, Last(path));
    }
  }

  /** So a skill on the root bounds the whole tree below it. */
  lemma {:induction false} SkillBoundsTree(requested: Grant, skill: Skill, path: seq<Grant>)
    requires GrantAt(Resolve(requested, Some(skill)), path).Some?
    ensures var g := GrantAt(Resolve(requested, Some(skill)), path).value; Within(g, requested) && WithinSkill(g, skill)
  {
    var root := Resolve(requested, Some(skill));
    DescendantWithinAncestors(root, path, 0);
    assert path[..0] == [];
    ResolveNarrows(requested, skill);
  }

  /** A delegated agent with shell or browser network always has a destination it may reach. */
  lemma NetworkedHaveDestination(root: Grant, path: seq<Grant>)
    requires path != [] && GrantAt(root, path).Some?
    requires exists c :: c in GrantAt(root, path).value.capabilities && NeedsDestination(c)
    ensures exists h :: h in GrantAt(root, path).value.hosts && PermitsHost(root.hosts, h)
  {
    var parent := GrantAt(root, Front(path)).value;
    var g := GrantAt(root, path).value;
    var c :| c in g.capabilities && NeedsDestination(c);
    assert c in g.capabilities * {NetShell, NetBrowser};
    var h :| h in g.hosts;
    assert Covers(h, h) && PermitsHost(g.hosts, h);
    DescendantWithinAncestors(root, path, 0);
    assert path[..0] == [];
  }
}
