/** The role store: one scan that answers for one department, one grouping index for all of them. */
module Departments {
  import opened Ordering

  datatype Role = Role(name: string, department: string)

  predicate Distinct(s: seq<string>) { forall i, j :: 0 <= i < j < |s| ==> s[i] != s[j] }

  function Names(roles: seq<Role>): (s: seq<string>)
    ensures |s| == |roles| && forall i :: 0 <= i < |roles| ==> s[i] == roles[i].name
  {
    seq(|roles|, i requires 0 <= i < |roles| => roles[i].name)
  }

  /** Names of one department's roles, in registration order. */
  function InDepartment(roles: seq<Role>, dept: string): (s: seq<string>)
    ensures forall n :: n in s <==> Role(n, dept) in roles
  {
    if roles == [] then []
    else
      var front, last := roles[..|roles| - 1], roles[|roles| - 1];
      assert roles == front + [last];
      InDepartment(front, dept) + if last.department == dept then [last.name] else []
  }

  /** `members_of`. */
  function MembersOf(roles: seq<Role>, dept: string): (s: seq<string>)
    ensures forall n :: n in s <==> Role(n, dept) in roles
  {
    var members := InDepartment(roles, dept);
    assert forall n :: n in SortStrings(members) <==> n in multiset(members);
    SortStrings(members)
  }

  lemma {:induction false} NobodyTwice(roles: seq<Role>, dept: string)
    requires Distinct(Names(roles))
    ensures Distinct(InDepartment(roles, dept))
  {
    if roles != [] {
      var front := roles[..|roles| - 1];
      assert Names(front) == Names(roles)[..|roles| - 1];
      NobodyTwice(front, dept);
      forall n | n in InDepartment(front, dept) ensures n != roles[|roles| - 1].name {
        var i :| 0 <= i < |front| && front[i] == Role(n, dept);
        assert Names(roles)[i] != Names(roles)[|roles| - 1];
      }
    }
  }

  /** With unique role names the members of a department come in string order, each once. */
  lemma MembersAreDistinct(roles: seq<Role>, dept: string)
    requires Distinct(Names(roles))
    ensures SortedBy(MembersOf(roles, dept), StrLe) && Distinct(MembersOf(roles, dept))
  {
    var members := InDepartment(roles, dept);
    NobodyTwice(roles, dept);
    StrOrder();
    SortSorts(members, StrLe);
    PermutationKeepsDistinct(members, SortStrings(members));
  }

  lemma {:induction false} InDepartmentCounts(roles: seq<Role>, dept: string, n: string)
    ensures multiset(InDepartment(roles, dept))[n] == multiset(roles)[Role(n, dept)]
  {
    if roles != [] {
      var front, last := roles[..|roles| - 1], roles[|roles| - 1];
      assert roles == front + [last];
      InDepartmentCounts(front, dept, n);
    }
  }

  /** The answer depends on which roles exist, never on the order they were registered in. */
  lemma MembersIgnoreOrder(a: seq<Role>, b: seq<Role>, dept: string)
    requires multiset(a) == multiset(b)
    ensures MembersOf(a, dept) == MembersOf(b, dept)
  {
    forall n ensures multiset(InDepartment(a, dept))[n] == multiset(InDepartment(b, dept))[n] {
      InDepartmentCounts(a, dept, n);
      InDepartmentCounts(b, dept, n);
    }
    StrOrder();
    SortOfPermutation(InDepartment(a, dept), InDepartment(b, dept), StrLe);
  }

  lemma OneRoleMore(roles: seq<Role>, i: nat, dept: string)
    requires i < |roles|
    ensures InDepartment(roles[..i + 1], dept)
      == if roles[i].department == dept then InDepartment(roles[..i], dept) + [roles[i].name] else InDepartment(roles[..i], dept)
  {
    assert roles[..i + 1][..i] == roles[..i];
  }

  lemma MembersSorted(roles: seq<Role>, dept: string)
    ensures MembersOf(roles, dept) == SortStrings(InDepartment(roles, dept))
  {
  }

  lemma NoRoles(dept: string)
    ensures InDepartment([], dept) == []
  {
  }

  lemma EmptyTogether(roles: seq<Role>, dept: string)
    ensures MembersOf(roles, dept) == [] <==> InDepartment(roles, dept) == []
  {
    assert multiset(MembersOf(roles, dept)) == multiset(InDepartment(roles, dept));
    assert |multiset(MembersOf(roles, dept))| == |MembersOf(roles, dept)|;
  }

  class AgentRegistry {
    var roles: seq<Role>

    constructor ()
      ensures roles == []
    {
      roles := [];
    }

    /** Registering a taken name raises (`ok` is false) and changes nothing. */
    method Register(spec: Role) returns (ok: bool)
      requires Distinct(Names(roles))
      modifies this
      ensures Distinct(Names(roles))
      ensures ok <==> spec.name !in old(Names(roles))
      ensures roles == if ok then old(roles) + [spec] else old(roles)
    {
      ok := spec.name !in Names(roles);
      if ok {
        roles := roles + [spec];
      }
    }

    /** `departments`: the index built in one pass agrees with the scan on every department,
        and a department is listed exactly when the scan finds someone. */
    method Departments() returns (index: map<string, seq<string>>)
      ensures forall d :: d in index <==> MembersOf(roles, d) != []
      ensures forall d :: d in index ==> index[d] == MembersOf(roles, d)
    {
      hide InDepartment, MembersOf;
      var groups: map<string, seq<string>> := map[];
      var i := 0;
      assert roles[..0] == [];
      forall d { NoRoles(d); }
      while i < |roles|
        invariant 0 <= i <= |roles|
        invariant forall d :: d in groups <==> InDepartment(roles[..i], d) != []
        invariant forall d :: d in groups ==> groups[d] == InDepartment(roles[..i], d)
      {
        var r := roles[i];
        forall d { OneRoleMore(roles, i, d); }
        var sofar := if r.department in groups then groups[r.department] else [];
        groups := groups[r.department := sofar + [r.name]];
        i := i + 1;
      }
      assert roles[..i] == roles;
      forall d { EmptyTogether(roles, d); }
      forall d { MembersSorted(roles, d); }
      index := map d | d in groups :: SortStrings(groups[d]);
    }
  }
}
