/**
 * Permission resolution over a table of roles, as in
 * `05_composite/problem.js`, `problem_tree.js` and `problem_usingMap.js`.
 * A role has its own permissions and a list of roles it inherits from; a
 * missing `inherits` field is the empty list. The key type `K` is the
 * role's name in the object-keyed tables and a role object's identity in
 * the `Map`-keyed one; `nameOf` gives the name a display line shows.
 *
 * The collectors recurse through `inherits` without any cycle check, so a
 * table is required to be acyclic: a ghost `rank` map witnesses that every
 * inherited role that exists ranks strictly below its heir.
 */
module RoleGraph {
  import opened Strings
  import Seqs

  /** `{ permissions, inherits }`. */
  datatype Role<K> = Role(permissions: seq<string>, inherits: seq<K>)

  /** The `roles` table. */
  type Table<K> = map<K, Role<K>>

  /** `rank` decreases along every `inherits` edge between existing roles. */
  ghost predicate Ranked<K(!new)>(roles: Table<K>, rank: map<K, nat>) {
    forall k :: k in roles ==>
      k in rank && forall c :: c in roles[k].inherits && c in roles ==> c in rank && rank[c] < rank[k]
  }

  /** How deep the recursion from `name` can go; an absent role ends it at once. */
  ghost function Height<K(!new)>(roles: Table<K>, rank: map<K, nat>, name: K): nat
    requires Ranked(roles, rank)
  {
    if name in roles then rank[name] + 1 else 0
  }

  /**
   * The permissions `collectPermissions(name)` meets, in the order it meets
   * them, repeats included: the role's own, then those of each inherited
   * role depth first in list order. An absent role contributes nothing.
   */
  ghost function Reach<K(!new)>(roles: Table<K>, rank: map<K, nat>, name: K): seq<string>
    requires Ranked(roles, rank)
    decreases Height(roles, rank, name), 0
  {
    if name !in roles then []
    else roles[name].permissions + ReachAll(roles, rank, roles[name].inherits, rank[name])
  }

  /** `Reach` of each role in `names`, concatenated. */
  ghost function ReachAll<K(!new)>(roles: Table<K>, rank: map<K, nat>, names: seq<K>, bound: nat): seq<string>
    requires Ranked(roles, rank)
    requires forall c :: c in names && c in roles ==> rank[c] < bound
    decreases bound, |names|
  {
    if names == [] then [] else Reach(roles, rank, names[0]) + ReachAll(roles, rank, names[1..], bound)
  }

  /** `p` is granted to `name`: `name` is a role holding `p` itself or inheriting a role that is granted it. */
  ghost predicate Grants<K(!new)>(roles: Table<K>, rank: map<K, nat>, name: K, p: string)
    requires Ranked(roles, rank)
    decreases Height(roles, rank, name)
  {
    name in roles &&
    (p in roles[name].permissions ||
     exists i :: 0 <= i < |roles[name].inherits| && Grants(roles, rank, roles[name].inherits[i], p))
  }

  /** Appending one inherited role appends its permissions. */
  lemma {:induction false} ReachAllSnoc<K(!new)>(roles: Table<K>, rank: map<K, nat>, names: seq<K>, bound: nat, j: nat)
    requires Ranked(roles, rank)
    requires forall c :: c in names && c in roles ==> rank[c] < bound
    requires j < |names|
    ensures ReachAll(roles, rank, names[..j + 1], bound) == ReachAll(roles, rank, names[..j], bound) + Reach(roles, rank, names[j])
    decreases j
  {
    if j == 0 {
      assert names[..1][1..] == [];
    } else {
      ReachAllSnoc(roles, rank, names[1..], bound, j - 1);
      assert names[..j + 1][1..] == names[1..][..j];
      assert names[..j][1..] == names[1..][..j - 1];
    }
  }

  /** A permission occurs in `Reach` exactly when it is granted. */
  lemma {:induction false} ReachGrants<K(!new)>(roles: Table<K>, rank: map<K, nat>, name: K, p: string)
    requires Ranked(roles, rank)
    ensures p in Reach(roles, rank, name) <==> Grants(roles, rank, name, p)
    decreases Height(roles, rank, name), 0
  {
    if name in roles {
      ReachAllGrants(roles, rank, roles[name].inherits, rank[name], p);
    }
  }

  /** A permission occurs in `ReachAll` exactly when one of the roles is granted it. */
  lemma {:induction false} ReachAllGrants<K(!new)>(roles: Table<K>, rank: map<K, nat>, names: seq<K>, bound: nat, p: string)
    requires Ranked(roles, rank)
    requires forall c :: c in names && c in roles ==> rank[c] < bound
    ensures p in ReachAll(roles, rank, names, bound) <==> exists i :: 0 <= i < |names| && Grants(roles, rank, names[i], p)
    decreases bound, |names|
  {
    if names != [] {
      ReachGrants(roles, rank, names[0], p);
      ReachAllGrants(roles, rank, names[1..], bound, p);
      if exists i :: 0 <= i < |names| && Grants(roles, rank, names[i], p) {
        var i :| 0 <= i < |names| && Grants(roles, rank, names[i], p);
        if i > 0 {
          assert names[1..][i - 1] == names[i];
        }
      }
      if exists i :: 0 <= i < |names[1..]| && Grants(roles, rank, names[1..][i], p) {
        var i :| 0 <= i < |names[1..]| && Grants(roles, rank, names[1..][i], p);
        assert names[i + 1] == names[1..][i];
      }
    }
  }

  /** Collecting one more inherited role extends what has been added by that role's permissions. */
  lemma CollectStep<K(!new)>(roles: Table<K>, rank: map<K, nat>, all: seq<string>, permissions: seq<string>,
                             inherits: seq<K>, bound: nat, j: nat)
    requires Ranked(roles, rank)
    requires forall c :: c in inherits && c in roles ==> rank[c] < bound
    requires j < |inherits|
    ensures Seqs.AddAll(Seqs.AddAll(all, permissions + ReachAll(roles, rank, inherits[..j], bound)), Reach(roles, rank, inherits[j]))
         == Seqs.AddAll(all, permissions + ReachAll(roles, rank, inherits[..j + 1], bound))
  {
    var before := ReachAll(roles, rank, inherits[..j], bound);
    var next := Reach(roles, rank, inherits[j]);
    var after := ReachAll(roles, rank, inherits[..j + 1], bound);
    ReachAllSnoc(roles, rank, inherits, bound, j);
    assert after == before + next;
    assert permissions + after == (permissions + before) + next;
    Seqs.AddAllAppend(all, permissions + before, next);
  }

  /** `permissions.forEach((permission) => allPermissions.add(permission))`. */
  method AddEach(all: seq<string>, permissions: seq<string>) returns (all': seq<string>)
    ensures all' == Seqs.AddAll(all, permissions)
  {
    all' := all;
    var i := 0;
    while i < |permissions|
      invariant 0 <= i <= |permissions|
      invariant all' == Seqs.AddAll(all, permissions[..i])
    {
      var done, p := permissions[..i], permissions[i];
      assert permissions[..i + 1] == done + [p];
      Seqs.AddAllSnoc(all, done, p);
      all' := Seqs.Add(all', p);
      i := i + 1;
    }
    assert permissions[..i] == permissions;
  }

  /**
   * `collectPermissions(name)` adding into the shared `allPermissions` set,
   * held in insertion order: it adds `Reach(name)` element by element.
   */
  method CollectPermissions<K(==,!new)>(roles: Table<K>, ghost rank: map<K, nat>, name: K, all: seq<string>)
    returns (all': seq<string>)
    requires Ranked(roles, rank)
    ensures all' == Seqs.AddAll(all, Reach(roles, rank, name))
    decreases Height(roles, rank, name)
  {
    all' := all;
    if name in roles {
      var permissions := roles[name].permissions;
      all' := AddEach(all, permissions);
      var inherits := roles[name].inherits;
      assert inherits[..0] == [];
      assert permissions + ReachAll(roles, rank, inherits[..0], rank[name]) == permissions;
      var j := 0;
      while j < |inherits|
        invariant 0 <= j <= |inherits|
        invariant all' == Seqs.AddAll(all, permissions + ReachAll(roles, rank, inherits[..j], rank[name]))
      {
        assert inherits[j] in inherits;
        all' := CollectPermissions(roles, rank, inherits[j], all');
        CollectStep(roles, rank, all, permissions, inherits, rank[name], j);
        j := j + 1;
      }
      assert inherits[..j] == inherits;
    }
  }

  /**
   * `getPermissions(role)`: `Array.from` of the set filled by
   * `collectPermissions(role)`, that is `Reach(role)` with each permission
   * at its first occurrence. An absent role yields `[]`.
   */
  method GetPermissions<K(==,!new)>(roles: Table<K>, ghost rank: map<K, nat>, role: K) returns (r: seq<string>)
    requires Ranked(roles, rank)
    ensures r == Seqs.Dedup(Reach(roles, rank, role))
    ensures role !in roles ==> r == []
  {
    r := CollectPermissions(roles, rank, role, []);
  }

  /** The resolved permissions are duplicate-free and are exactly the granted ones. */
  lemma PermissionsExact<K(!new)>(roles: Table<K>, rank: map<K, nat>, role: K, p: string)
    requires Ranked(roles, rank)
    ensures Seqs.NoDup(Seqs.Dedup(Reach(roles, rank, role)))
    ensures p in Seqs.Dedup(Reach(roles, rank, role)) <==> Grants(roles, rank, role, p)
  {
    ReachGrants(roles, rank, role, p);
    Seqs.DedupMembers(Reach(roles, rank, role), p);
  }

  /** A role's own permissions, deduplicated, come first in its resolved permissions. */
  lemma OwnPermissionsFirst<K(!new)>(roles: Table<K>, rank: map<K, nat>, role: K)
    requires Ranked(roles, rank) && role in roles
    ensures var own := Seqs.Dedup(roles[role].permissions);
      var all := Seqs.Dedup(Reach(roles, rank, role));
      |own| <= |all| && all[..|own|] == own
  {
    var own := roles[role].permissions;
    Seqs.AddAllAppend([], own, ReachAll(roles, rank, roles[role].inherits, rank[role]));
  }

  /** A role that inherits nothing resolves to its own permissions only. */
  lemma NoInheritsOwnOnly<K(!new)>(roles: Table<K>, rank: map<K, nat>, role: K)
    requires Ranked(roles, rank) && role in roles && roles[role].inherits == []
    ensures Seqs.Dedup(Reach(roles, rank, role)) == Seqs.Dedup(roles[role].permissions)
  {
    assert Reach(roles, rank, role) == roles[role].permissions + [];
    assert roles[role].permissions + [] == roles[role].permissions;
  }

  /** A role inheriting nothing reaches its own permissions. */
  lemma ReachLeaf<K(!new)>(roles: Table<K>, rank: map<K, nat>, name: K)
    requires Ranked(roles, rank) && name in roles && roles[name].inherits == []
    ensures Reach(roles, rank, name) == roles[name].permissions
  {
    assert Reach(roles, rank, name) == roles[name].permissions + [];
  }

  /** A role inheriting one role reaches its own permissions, then that role's. */
  lemma ReachSingleHeir<K(!new)>(roles: Table<K>, rank: map<K, nat>, name: K)
    requires Ranked(roles, rank) && name in roles && |roles[name].inherits| == 1
    ensures Reach(roles, rank, name) == roles[name].permissions + Reach(roles, rank, roles[name].inherits[0])
  {
    var kids := roles[name].inherits;
    assert kids[0] in kids && kids[1..] == [];
    assert ReachAll(roles, rank, kids, rank[name]) == Reach(roles, rank, kids[0]) + [];
  }

  /** A role inheriting two roles reaches its own permissions, then the first role's, then the second's. */
  lemma ReachTwoHeirs<K(!new)>(roles: Table<K>, rank: map<K, nat>, name: K)
    requires Ranked(roles, rank) && name in roles && |roles[name].inherits| == 2
    ensures Reach(roles, rank, name)
         == roles[name].permissions + Reach(roles, rank, roles[name].inherits[0]) + Reach(roles, rank, roles[name].inherits[1])
  {
    var kids := roles[name].inherits;
    var tail := kids[1..];
    assert kids[0] in kids && kids[1] in kids;
    assert tail[0] == kids[1] && tail[1..] == [];
    var r0, r1 := Reach(roles, rank, kids[0]), Reach(roles, rank, kids[1]);
    assert ReachAll(roles, rank, tail, rank[name]) == r1 by {
      assert ReachAll(roles, rank, tail, rank[name]) == r1 + ReachAll(roles, rank, tail[1..], rank[name]);
      assert r1 + [] == r1;
    }
    assert ReachAll(roles, rank, kids, rank[name]) == r0 + r1;
    Seqs.Assoc(roles[name].permissions, r0, r1);
  }

  /**
   * `displayRoleHierarchy(name, indent)` of `problem.js` and
   * `problem_usingMap.js`: two lines for a present role, then each inherited
   * role at `indent + "  "`; nothing for an absent role.
   */
  ghost function Display<K(!new)>(roles: Table<K>, rank: map<K, nat>, nameOf: K -> string, name: K, indent: string)
    : (lines: seq<string>)
    requires Ranked(roles, rank)
    ensures name !in roles ==> lines == []
    ensures name in roles ==> (|lines| >= 2 &&
      lines[0] == indent + "- Role: " + nameOf(name) &&
      lines[1] == indent + "  Permissions: " + Join(roles[name].permissions, ", "))
    ensures name in roles && roles[name].inherits == [] ==> |lines| == 2
    decreases Height(roles, rank, name), 0
  {
    if name !in roles then []
    else
      [indent + "- Role: " + nameOf(name), indent + "  Permissions: " + Join(roles[name].permissions, ", ")]
      + DisplayAll(roles, rank, nameOf, roles[name].inherits, rank[name], indent + "  ")
  }

  /** `Display` of each role in `names` at the same indent, concatenated. */
  ghost function DisplayAll<K(!new)>(roles: Table<K>, rank: map<K, nat>, nameOf: K -> string, names: seq<K>, bound: nat, indent: string)
    : seq<string>
    requires Ranked(roles, rank)
    requires forall c :: c in names && c in roles ==> rank[c] < bound
    decreases bound, |names|
  {
    if names == [] then []
    else Display(roles, rank, nameOf, names[0], indent) + DisplayAll(roles, rank, nameOf, names[1..], bound, indent)
  }

  /** How many present roles the display visits from `name`, counting a role once per time it is reached. */
  ghost function Visits<K(!new)>(roles: Table<K>, rank: map<K, nat>, name: K): nat
    requires Ranked(roles, rank)
    decreases Height(roles, rank, name), 0
  {
    if name !in roles then 0 else 1 + VisitsAll(roles, rank, roles[name].inherits, rank[name])
  }

  /** `Visits` of each role in `names`, summed. */
  ghost function VisitsAll<K(!new)>(roles: Table<K>, rank: map<K, nat>, names: seq<K>, bound: nat): nat
    requires Ranked(roles, rank)
    requires forall c :: c in names && c in roles ==> rank[c] < bound
    decreases bound, |names|
  {
    if names == [] then 0 else Visits(roles, rank, names[0]) + VisitsAll(roles, rank, names[1..], bound)
  }

  /** A role inheriting nothing is displayed as its two lines. */
  lemma DisplayLeaf<K(!new)>(roles: Table<K>, rank: map<K, nat>, nameOf: K -> string, name: K, indent: string)
    requires Ranked(roles, rank) && name in roles && roles[name].inherits == []
    ensures Display(roles, rank, nameOf, name, indent)
         == [indent + "- Role: " + nameOf(name), indent + "  Permissions: " + Join(roles[name].permissions, ", ")]
  {
  }

  /** A role inheriting exactly one role is displayed as its two lines followed by that role's display. */
  lemma DisplaySingleHeir<K(!new)>(roles: Table<K>, rank: map<K, nat>, nameOf: K -> string, name: K, indent: string)
    requires Ranked(roles, rank) && name in roles && |roles[name].inherits| == 1
    ensures Display(roles, rank, nameOf, name, indent)
         == [indent + "- Role: " + nameOf(name), indent + "  Permissions: " + Join(roles[name].permissions, ", ")]
            + Display(roles, rank, nameOf, roles[name].inherits[0], indent + "  ")
  {
    var kids := roles[name].inherits;
    assert kids[1..] == [];
    assert kids[0] in kids;
    var below := indent + "  ";
    assert DisplayAll(roles, rank, nameOf, kids[1..], rank[name], below) == [];
    assert DisplayAll(roles, rank, nameOf, kids, rank[name], below) == Display(roles, rank, nameOf, kids[0], below) + [];
  }

  /**
   * Two lines per role visited; every displayed line starts with the indent,
   * and every line after the role's own two is an inherited role's, two
   * spaces further in.
   */
  lemma {:induction false} DisplayShape<K(!new)>(roles: Table<K>, rank: map<K, nat>, nameOf: K -> string, name: K, indent: string)
    requires Ranked(roles, rank)
    ensures var lines := Display(roles, rank, nameOf, name, indent);
      |lines| == 2 * Visits(roles, rank, name) &&
      (forall i :: 0 <= i < |lines| ==> StartsWith(lines[i], indent)) &&
      (forall i :: 2 <= i < |lines| ==> StartsWith(lines[i], indent + "  "))
    decreases Height(roles, rank, name), 0
  {
    if name in roles {
      var own := [indent + "- Role: " + nameOf(name), indent + "  Permissions: " + Join(roles[name].permissions, ", ")];
      var kids := DisplayAll(roles, rank, nameOf, roles[name].inherits, rank[name], indent + "  ");
      DisplayAllShape(roles, rank, nameOf, roles[name].inherits, rank[name], indent + "  ");
      StartsWithConcat(indent, "- Role: " + nameOf(name));
      StartsWithConcat(indent, "  Permissions: " + Join(roles[name].permissions, ", "));
      assert indent + "- Role: " + nameOf(name) == indent + ("- Role: " + nameOf(name));
      assert indent + "  Permissions: " + Join(roles[name].permissions, ", ")
          == indent + ("  Permissions: " + Join(roles[name].permissions, ", "));
      forall i | 0 <= i < |kids| ensures StartsWith(kids[i], indent) {
        StartsWithLonger(kids[i], indent, "  ");
      }
      var lines := own + kids;
      forall i | 0 <= i < |lines| ensures StartsWith(lines[i], indent) && (i >= 2 ==> StartsWith(lines[i], indent + "  ")) {
        if i >= 2 {
          assert lines[i] == kids[i - 2];
        }
      }
    }
  }

  /** `DisplayShape` for a list of roles. */
  lemma {:induction false} DisplayAllShape<K(!new)>(roles: Table<K>, rank: map<K, nat>, nameOf: K -> string, names: seq<K>, bound: nat, indent: string)
    requires Ranked(roles, rank)
    requires forall c :: c in names && c in roles ==> rank[c] < bound
    ensures var lines := DisplayAll(roles, rank, nameOf, names, bound, indent);
      |lines| == 2 * VisitsAll(roles, rank, names, bound) && forall i :: 0 <= i < |lines| ==> StartsWith(lines[i], indent)
    decreases bound, |names|
  {
    if names != [] {
      DisplayShape(roles, rank, nameOf, names[0], indent);
      DisplayAllShape(roles, rank, nameOf, names[1..], bound, indent);
      var a := Display(roles, rank, nameOf, names[0], indent);
      var b := DisplayAll(roles, rank, nameOf, names[1..], bound, indent);
      forall i | 0 <= i < |a + b| ensures StartsWith((a + b)[i], indent) {
        if i < |a| {
          assert (a + b)[i] == a[i];
        } else {
          assert (a + b)[i] == b[i - |a|];
        }
      }
    }
  }

  /** The tree connector: `└─` for the last child, `├─` otherwise. */
  function Connector(isLast: bool): string {
    if isLast then "└─" else "├─"
  }

  /** The prefix children are drawn with: blank under a last child, a bar otherwise. */
  function ChildPrefix(prefix: string, isLast: bool): (r: string)
    ensures StartsWith(r, prefix) && |r| == |prefix| + 3
  {
    StartsWithConcat(prefix, if isLast then "   " else "│  ");
    prefix + (if isLast then "   " else "│  ")
  }

  /**
   * `displayRoleHierarchy(name, prefix, isLast)` of `problem_tree.js`:
   * nothing for an absent role; else the role line with its connector, the
   * permissions line, and each inherited role under `ChildPrefix`, only the
   * last of them drawn as last.
   */
  ghost function Tree<K(!new)>(roles: Table<K>, rank: map<K, nat>, nameOf: K -> string, name: K, prefix: string, isLast: bool)
    : (lines: seq<string>)
    requires Ranked(roles, rank)
    ensures name !in roles ==> lines == []
    ensures name in roles ==> (|lines| >= 2 &&
      lines[0] == prefix + Connector(isLast) + " Role: " + nameOf(name) &&
      lines[1] == prefix + "   Permissions: " + Join(roles[name].permissions, ", "))
    ensures name in roles && roles[name].inherits == [] ==> |lines| == 2
    decreases Height(roles, rank, name), 0
  {
    if name !in roles then []
    else
      [prefix + Connector(isLast) + " Role: " + nameOf(name),
       prefix + "   Permissions: " + Join(roles[name].permissions, ", ")]
      + TreeKids(roles, rank, nameOf, roles[name].inherits, 0, rank[name], ChildPrefix(prefix, isLast))
  }

  /** The `inherits.forEach((inheritedRole, index) => ...)` of `Tree`, from `index` on. */
  ghost function TreeKids<K(!new)>(roles: Table<K>, rank: map<K, nat>, nameOf: K -> string, kids: seq<K>, index: nat, bound: nat, prefix: string)
    : seq<string>
    requires Ranked(roles, rank)
    requires forall c :: c in kids && c in roles ==> rank[c] < bound
    decreases bound, |kids| - index
  {
    if index >= |kids| then []
    else
      assert kids[index] in kids;
      Tree(roles, rank, nameOf, kids[index], prefix, index == |kids| - 1)
      + TreeKids(roles, rank, nameOf, kids, index + 1, bound, prefix)
  }

  /** A role that inherits one role is drawn as its two lines above that role, drawn as the last child. */
  lemma TreeOneKid<K(!new)>(roles: Table<K>, rank: map<K, nat>, nameOf: K -> string, name: K, prefix: string, isLast: bool)
    requires Ranked(roles, rank) && name in roles && |roles[name].inherits| == 1
    ensures Tree(roles, rank, nameOf, name, prefix, isLast)
         == [prefix + Connector(isLast) + " Role: " + nameOf(name),
             prefix + "   Permissions: " + Join(roles[name].permissions, ", ")]
            + Tree(roles, rank, nameOf, roles[name].inherits[0], ChildPrefix(prefix, isLast), true)
  {
    var kids := roles[name].inherits;
    assert kids[0] in kids;
    assert TreeKids(roles, rank, nameOf, kids, 1, rank[name], ChildPrefix(prefix, isLast)) == [];
  }

  /** A role that inherits two roles is drawn as its two lines above the first child and then the last. */
  lemma TreeTwoKids<K(!new)>(roles: Table<K>, rank: map<K, nat>, nameOf: K -> string, name: K, prefix: string, isLast: bool)
    requires Ranked(roles, rank) && name in roles && |roles[name].inherits| == 2
    ensures Tree(roles, rank, nameOf, name, prefix, isLast)
         == [prefix + Connector(isLast) + " Role: " + nameOf(name),
             prefix + "   Permissions: " + Join(roles[name].permissions, ", ")]
            + Tree(roles, rank, nameOf, roles[name].inherits[0], ChildPrefix(prefix, isLast), false)
            + Tree(roles, rank, nameOf, roles[name].inherits[1], ChildPrefix(prefix, isLast), true)
  {
    var kids := roles[name].inherits;
    assert kids[0] in kids && kids[1] in kids;
    var cp := ChildPrefix(prefix, isLast);
    assert TreeKids(roles, rank, nameOf, kids, 2, rank[name], cp) == [];
    assert TreeKids(roles, rank, nameOf, kids, 1, rank[name], cp)
        == Tree(roles, rank, nameOf, kids[1], cp, true);
  }

  /** Every tree line starts with the prefix it was drawn at. */
  lemma {:induction false} TreeUnderPrefix<K(!new)>(roles: Table<K>, rank: map<K, nat>, nameOf: K -> string, name: K, prefix: string, isLast: bool)
    requires Ranked(roles, rank)
    ensures forall line :: line in Tree(roles, rank, nameOf, name, prefix, isLast) ==> StartsWith(line, prefix)
    decreases Height(roles, rank, name), 0
  {
    if name in roles {
      var childPrefix := ChildPrefix(prefix, isLast);
      var kids := TreeKids(roles, rank, nameOf, roles[name].inherits, 0, rank[name], childPrefix);
      TreeKidsUnderPrefix(roles, rank, nameOf, roles[name].inherits, 0, rank[name], childPrefix);
      var l0 := prefix + Connector(isLast) + " Role: " + nameOf(name);
      var l1 := prefix + "   Permissions: " + Join(roles[name].permissions, ", ");
      assert l0 == prefix + (Connector(isLast) + " Role: " + nameOf(name));
      assert l1 == prefix + ("   Permissions: " + Join(roles[name].permissions, ", "));
      StartsWithConcat(prefix, Connector(isLast) + " Role: " + nameOf(name));
      StartsWithConcat(prefix, "   Permissions: " + Join(roles[name].permissions, ", "));
      forall line | line in kids ensures StartsWith(line, prefix) {
        StartsWithTrans(line, childPrefix, prefix);
      }
      assert Tree(roles, rank, nameOf, name, prefix, isLast) == [l0, l1] + kids;
    }
  }

  /** `TreeUnderPrefix` for the children from `index` on. */
  lemma {:induction false} TreeKidsUnderPrefix<K(!new)>(roles: Table<K>, rank: map<K, nat>, nameOf: K -> string, kids: seq<K>, index: nat, bound: nat, prefix: string)
    requires Ranked(roles, rank)
    requires forall c :: c in kids && c in roles ==> rank[c] < bound
    ensures forall line :: line in TreeKids(roles, rank, nameOf, kids, index, bound, prefix) ==> StartsWith(line, prefix)
    decreases bound, |kids| - index
  {
    if index < |kids| {
      assert kids[index] in kids;
      TreeUnderPrefix(roles, rank, nameOf, kids[index], prefix, index == |kids| - 1);
      TreeKidsUnderPrefix(roles, rank, nameOf, kids, index + 1, bound, prefix);
      var a := Tree(roles, rank, nameOf, kids[index], prefix, index == |kids| - 1);
      var b := TreeKids(roles, rank, nameOf, kids, index + 1, bound, prefix);
      assert TreeKids(roles, rank, nameOf, kids, index, bound, prefix) == a + b;
    }
  }

  /**
   * `displayRoleHierarchyWithPermissions(name, prefix, isLast)`: the same
   * top lines as `Tree`, with the children drawn by `Tree` itself.
   */
  ghost function TreeWithPermissions<K(!new)>(roles: Table<K>, rank: map<K, nat>, nameOf: K -> string, name: K, prefix: string, isLast: bool)
    : seq<string>
    requires Ranked(roles, rank)
  {
    if name in roles then
      [prefix + Connector(isLast) + " Role: " + nameOf(name),
       prefix + "   Permissions: " + Join(roles[name].permissions, ", ")]
      + TreeKids(roles, rank, nameOf, roles[name].inherits, 0, rank[name], ChildPrefix(prefix, isLast))
    else []
  }

  /** `displayRoleHierarchyWithPermissions` draws exactly what `displayRoleHierarchy` draws. */
  lemma WithPermissionsSameLines<K(!new)>(roles: Table<K>, rank: map<K, nat>, nameOf: K -> string, name: K, prefix: string, isLast: bool)
    requires Ranked(roles, rank)
    ensures TreeWithPermissions(roles, rank, nameOf, name, prefix, isLast) == Tree(roles, rank, nameOf, name, prefix, isLast)
  {
  }
}
