/**
 * The immutable role builders of `05_composite/solution2.js`. A role is a
 * value holding its own permissions and the sub-roles it was composed from;
 * every builder returns a new role and leaves its argument as it was, which
 * values give for free. Permissions are gathered by a `reduce` over the
 * sub-roles that merges sets, and the script ends with a word count built by
 * a second `reduce` that writes into its accumulator object.
 */
module ImmutableRoles {
  import opened Wrappers
  import opened Strings
  import opened Seqs
  import JsMap

  /** `{ name, permissions, subRoles }`. */
  datatype RoleNode = RoleNode(name: string, permissions: seq<string>, subRoles: seq<RoleNode>)

  /** `createRole(name)`: a named role with nothing granted and nothing composed. */
  function CreateRole(name: string): (r: RoleNode)
    ensures r.name == name && r.permissions == [] && r.subRoles == []
  {
    RoleNode(name, [], [])
  }

  /** `addPermission(role, permission)`: a copy with the permission appended to the role's own. */
  function AddPermission(role: RoleNode, permission: string): (r: RoleNode)
    ensures r.name == role.name && r.subRoles == role.subRoles
    ensures r.permissions == role.permissions + [permission]
  {
    role.(permissions := role.permissions + [permission])
  }

  /** `addRole(role, subRole)`: a copy with `subRole` composed in last. */
  function AddRole(role: RoleNode, subRole: RoleNode): (r: RoleNode)
    ensures r.name == role.name && r.permissions == role.permissions
    ensures r.subRoles == role.subRoles + [subRole]
  {
    role.(subRoles := role.subRoles + [subRole])
  }

  /** `getPermissions(role)`: the `reduce` result as an array, in the merged set's insertion order. */
  function GetPermissions(role: RoleNode): (r: seq<string>)
    ensures NoDup(r)
    decreases role, 1
  {
    Merged(role, |role.subRoles|)
  }

  /**
   * The accumulator of `role.subRoles.reduce(...)` after the first `n`
   * sub-roles: it starts as `new Set(role.permissions)` and each step is
   * `new Set([...acc, ...getPermissions(subRole)])`.
   */
  function Merged(role: RoleNode, n: nat): (acc: seq<string>)
    requires n <= |role.subRoles|
    ensures NoDup(acc)
    decreases role, 0, n
  {
    if n == 0 then Dedup(role.permissions)
    else
      assert role.subRoles[n - 1] in role.subRoles;
      Dedup(Merged(role, n - 1) + GetPermissions(role.subRoles[n - 1]))
  }

  /** The permissions met in a pre-order walk: the role's own, then each sub-role's in order. */
  function Flatten(role: RoleNode): seq<string>
    decreases role, 1
  {
    role.permissions + FlattenFirst(role, |role.subRoles|)
  }

  /** `Flatten` of the first `n` sub-roles, concatenated. */
  function FlattenFirst(role: RoleNode, n: nat): seq<string>
    requires n <= |role.subRoles|
    decreases role, 0, n
  {
    if n == 0 then []
    else
      assert role.subRoles[n - 1] in role.subRoles;
      FlattenFirst(role, n - 1) + Flatten(role.subRoles[n - 1])
  }

  /** `p` is granted by `role` itself or by a role composed into it at any depth. */
  ghost predicate Holds(role: RoleNode, p: string)
    decreases role
  {
    p in role.permissions || exists i :: 0 <= i < |role.subRoles| && Holds(role.subRoles[i], p)
  }

  /** Merging a set with another set is merging it with the elements the second was made of. */
  lemma DedupMerge(a: seq<string>, b: seq<string>)
    ensures Dedup(Dedup(a) + Dedup(b)) == Dedup(a + b)
  {
    AddAllAppend([], Dedup(a), Dedup(b));
    assert [] + Dedup(a) == Dedup(a);
    AddAllFresh([], Dedup(a));
    AddAllDedup(Dedup(a), b);
    AddAllAppend([], a, b);
  }

  /**
   * `getPermissions` is the pre-order walk with repeats dropped: own
   * permissions first, then each sub-role's in sub-role order, each
   * permission kept where it first occurs.
   */
  lemma {:induction false} PermissionsArePreorder(role: RoleNode)
    ensures GetPermissions(role) == Dedup(Flatten(role))
    decreases role, 1
  {
    MergedIsPreorder(role, |role.subRoles|);
  }

  /** The accumulator after `n` sub-roles is the walk over the own permissions and those sub-roles. */
  lemma {:induction false} MergedIsPreorder(role: RoleNode, n: nat)
    requires n <= |role.subRoles|
    ensures Merged(role, n) == Dedup(role.permissions + FlattenFirst(role, n))
    decreases role, 0, n
  {
    if n == 0 {
      assert role.permissions + [] == role.permissions;
    } else {
      var k := n - 1;
      assert role.subRoles[k] in role.subRoles;
      MergedIsPreorder(role, k);
      PermissionsArePreorder(role.subRoles[k]);
      MergedStep(role, k);
    }
  }

  /** One step of the `reduce`: merging in the next sub-role's walk extends the walk. */
  lemma MergedStep(role: RoleNode, k: nat)
    requires k < |role.subRoles|
    requires Merged(role, k) == Dedup(role.permissions + FlattenFirst(role, k))
    requires GetPermissions(role.subRoles[k]) == Dedup(Flatten(role.subRoles[k]))
    ensures Merged(role, k + 1) == Dedup(role.permissions + FlattenFirst(role, k + 1))
  {
    var before, last := role.permissions + FlattenFirst(role, k), Flatten(role.subRoles[k]);
    FlattenStep(role, k);
    assert Merged(role, k + 1) == Dedup(Dedup(before) + Dedup(last));
    DedupMerge(before, last);
  }

  /** The walk over one more sub-role is the walk so far followed by that sub-role's. */
  lemma FlattenStep(role: RoleNode, k: nat)
    requires k < |role.subRoles|
    ensures role.permissions + FlattenFirst(role, k + 1)
         == (role.permissions + FlattenFirst(role, k)) + Flatten(role.subRoles[k])
  {
    assert FlattenFirst(role, k + 1) == FlattenFirst(role, k) + Flatten(role.subRoles[k]);
  }

  /** The walk meets `p` exactly when the role or one composed into it grants `p`. */
  lemma {:induction false} FlattenHolds(role: RoleNode, p: string)
    ensures p in Flatten(role) <==> Holds(role, p)
    decreases role, 1
  {
    FlattenFirstHolds(role, |role.subRoles|, p);
  }

  /** The walk over the first `n` sub-roles meets `p` exactly when one of them grants it. */
  lemma {:induction false} FlattenFirstHolds(role: RoleNode, n: nat, p: string)
    requires n <= |role.subRoles|
    ensures p in FlattenFirst(role, n) <==> exists i :: 0 <= i < n && Holds(role.subRoles[i], p)
    decreases role, 0, n
  {
    if n > 0 {
      var k := n - 1;
      var sub := role.subRoles[k];
      assert sub in role.subRoles;
      FlattenFirstHolds(role, k, p);
      FlattenHolds(sub, p);
      assert FlattenFirst(role, n) == FlattenFirst(role, k) + Flatten(sub);
      if Holds(sub, p) {
        assert 0 <= k < n && Holds(role.subRoles[k], p);
      }
      if exists i :: 0 <= i < n && Holds(role.subRoles[i], p) {
        var i :| 0 <= i < n && Holds(role.subRoles[i], p);
        if i < k {
          assert exists j :: 0 <= j < k && Holds(role.subRoles[j], p);
        }
      }
    }
  }

  /** `getPermissions` holds exactly the permissions granted by the role and every role composed into it. */
  lemma PermissionsExact(role: RoleNode, p: string)
    ensures NoDup(GetPermissions(role))
    ensures p in GetPermissions(role) <==> Holds(role, p)
  {
    PermissionsArePreorder(role);
    DedupMembers(Flatten(role), p);
    FlattenHolds(role, p);
  }

  /** The role's own permissions, without repeats, come first and in their own order. */
  lemma OwnPermissionsLead(role: RoleNode)
    ensures var own := Dedup(role.permissions);
      |own| <= |GetPermissions(role)| && GetPermissions(role)[..|own|] == own
  {
    PermissionsArePreorder(role);
    AddAllAppend([], role.permissions, FlattenFirst(role, |role.subRoles|));
  }

  /** A role just created grants nothing. */
  lemma CreatedRoleEmpty(name: string)
    ensures GetPermissions(CreateRole(name)) == []
    ensures DisplayRole(CreateRole(name), "") == [" -Role:" + name, " Permissions:"]
  {
    assert Dedup<string>([]) == AddAll<string>([], []) == [];
    assert "" + " -Role:" + name == " -Role:" + name;
    assert "" + " Permissions:" + Join([], ",") == " Permissions:";
  }

  /** Adding a permission grants it in addition to all the role granted before, and nothing else. */
  lemma AddPermissionGrants(role: RoleNode, permission: string, p: string)
    ensures p in GetPermissions(AddPermission(role, permission)) <==> p in GetPermissions(role) || p == permission
  {
    var grown := AddPermission(role, permission);
    PermissionsExact(grown, p);
    PermissionsExact(role, p);
    assert p in grown.permissions <==> p in role.permissions || p == permission;
  }

  /** Composing a role in with `addRole` merges its permissions in after all the others: one more `reduce` step. */
  lemma AddRoleMerges(role: RoleNode, subRole: RoleNode)
    ensures GetPermissions(AddRole(role, subRole)) == Dedup(GetPermissions(role) + GetPermissions(subRole))
  {
    var grown := AddRole(role, subRole);
    var n := |role.subRoles|;
    MergedPrefix(grown, role, n);
    assert grown.subRoles[n] == subRole;
    assert GetPermissions(grown) == Dedup(Merged(grown, n) + GetPermissions(subRole));
  }

  /** The permissions granted after `addRole` are those of both roles. */
  lemma AddRoleGrants(role: RoleNode, subRole: RoleNode, p: string)
    ensures p in GetPermissions(AddRole(role, subRole)) <==> p in GetPermissions(role) || p in GetPermissions(subRole)
  {
    AddRoleMerges(role, subRole);
    DedupMembers(GetPermissions(role) + GetPermissions(subRole), p);
  }

  /** Two roles with the same own permissions and the same first `n` sub-roles merge the same after `n` steps. */
  lemma {:induction false} MergedPrefix(a: RoleNode, b: RoleNode, n: nat)
    requires n <= |a.subRoles| && n <= |b.subRoles|
    requires a.permissions == b.permissions && a.subRoles[..n] == b.subRoles[..n]
    ensures Merged(a, n) == Merged(b, n)
  {
    if n > 0 {
      var k := n - 1;
      assert a.subRoles[k] == a.subRoles[..n][k] == b.subRoles[k];
      assert a.subRoles[..k] == a.subRoles[..n][..k] == b.subRoles[..k];
      MergedPrefix(a, b, k);
      MergedNext(a, k);
      MergedNext(b, k);
    }
  }

  /** The accumulator after one more step of the `reduce`. */
  lemma MergedNext(role: RoleNode, k: nat)
    requires k < |role.subRoles|
    ensures Merged(role, k + 1) == Dedup(Merged(role, k) + GetPermissions(role.subRoles[k]))
  {
  }

  /**
   * `displayRole(role, indent)`: the role's name line and its own
   * permissions joined with `","`, then every sub-role in order one space
   * further in.
   */
  function DisplayRole(role: RoleNode, indent: string): (lines: seq<string>)
    ensures |lines| >= 2
    ensures lines[0] == indent + " -Role:" + role.name
    ensures lines[1] == indent + " Permissions:" + Join(role.permissions, ",")
    decreases role, 1
  {
    [indent + " -Role:" + role.name, indent + " Permissions:" + Join(role.permissions, ",")]
      + DisplaySubRoles(role, |role.subRoles|, indent + " ")
  }

  /** The displays of the first `n` sub-roles at `indent`, in order. */
  function DisplaySubRoles(role: RoleNode, n: nat, indent: string): seq<string>
    requires n <= |role.subRoles|
    decreases role, 0, n
  {
    if n == 0 then []
    else
      assert role.subRoles[n - 1] in role.subRoles;
      DisplaySubRoles(role, n - 1, indent) + DisplayRole(role.subRoles[n - 1], indent)
  }

  /** How many roles the tree rooted at `role` holds, the root included. */
  function RoleCount(role: RoleNode): nat
    decreases role, 1
  {
    1 + SubRoleCount(role, |role.subRoles|)
  }

  /** How many roles the trees of the first `n` sub-roles hold. */
  function SubRoleCount(role: RoleNode, n: nat): nat
    requires n <= |role.subRoles|
    decreases role, 0, n
  {
    if n == 0 then 0
    else
      assert role.subRoles[n - 1] in role.subRoles;
      SubRoleCount(role, n - 1) + RoleCount(role.subRoles[n - 1])
  }

  /** Two lines per role in the tree; every line starts with the indent, and every line after the first two one space further in. */
  lemma {:induction false} DisplayRoleShape(role: RoleNode, indent: string)
    ensures var lines := DisplayRole(role, indent);
      |lines| == 2 * RoleCount(role) &&
      (forall i :: 0 <= i < |lines| ==> StartsWith(lines[i], indent)) &&
      (forall i :: 2 <= i < |lines| ==> StartsWith(lines[i], indent + " "))
    decreases role, 1
  {
    var lines := DisplayRole(role, indent);
    var deeper := indent + " ";
    var own := [indent + " -Role:" + role.name, indent + " Permissions:" + Join(role.permissions, ",")];
    var subs := DisplaySubRoles(role, |role.subRoles|, deeper);
    DisplaySubRolesShape(role, |role.subRoles|, deeper);
    assert lines == own + subs;
    StartsWithConcat(indent, " -Role:" + role.name);
    StartsWithConcat(indent, " Permissions:" + Join(role.permissions, ","));
    assert own[0] == indent + (" -Role:" + role.name);
    assert own[1] == indent + (" Permissions:" + Join(role.permissions, ","));
    StartsWithConcat(indent, " ");
    forall i | 2 <= i < |lines| ensures StartsWith(lines[i], indent + " ") && StartsWith(lines[i], indent) {
      assert lines[i] == subs[i - 2];
      StartsWithTrans(lines[i], deeper, indent);
    }
  }

  /** The displays of the first `n` sub-roles at `indent` have two lines per role in their trees, each starting with `indent`. */
  lemma {:induction false} DisplaySubRolesShape(role: RoleNode, n: nat, indent: string)
    requires n <= |role.subRoles|
    ensures var lines := DisplaySubRoles(role, n, indent);
      |lines| == 2 * SubRoleCount(role, n) && forall i :: 0 <= i < |lines| ==> StartsWith(lines[i], indent)
    decreases role, 0, n
  {
    if n > 0 {
      var k := n - 1;
      var sub := role.subRoles[k];
      assert sub in role.subRoles;
      DisplaySubRolesShape(role, k, indent);
      DisplayRoleShape(sub, indent);
      var front, back := DisplaySubRoles(role, k, indent), DisplayRole(sub, indent);
      assert DisplaySubRoles(role, n, indent) == front + back;
    }
  }

  /** How many times `w` occurs in `words`. */
  function Occurrences(words: seq<string>, w: string): nat {
    if words == [] then 0
    else Occurrences(words[..|words| - 1], w) + (if words[|words| - 1] == w then 1 else 0)
  }

  /** A word's count, or `None` where the object has no such key. */
  function Tally(words: seq<string>, w: string): Option<nat> {
    if Occurrences(words, w) == 0 then None else Some(Occurrences(words, w))
  }

  /** A word occurs in `words` exactly when it is counted there. */
  lemma {:induction false} OccurrencesPositive(words: seq<string>, w: string)
    ensures Occurrences(words, w) > 0 <==> w in words
  {
    if words != [] {
      var init := words[..|words| - 1];
      OccurrencesPositive(init, w);
      assert words == init + [words[|words| - 1]];
    }
  }

  /**
   * `words.reduce((acc, word) => { acc[word] = (acc[word] || 0) + 1; return acc; }, {})`:
   * each word's number of occurrences, keyed in order of first occurrence.
   */
  method CountWords(words: seq<string>) returns (counts: JsMap.Entries<string, nat>)
    ensures JsMap.Valid(counts)
    ensures JsMap.Keys(counts) == Dedup(words)
    ensures forall w :: JsMap.Lookup(counts, w) == Tally(words, w)
  {
    counts := [];
    var i := 0;
    CountedNone();
    while i < |words|
      invariant 0 <= i <= |words|
      invariant Counted(counts, words[..i])
    {
      var word := words[i];
      var count := NextCount(counts, word);
      Seqs.TakeSnoc(words, i);
      CountStep(words[..i], word, counts);
      counts := JsMap.Set(counts, word, count);
      i := i + 1;
    }
    Seqs.TakeAll(words);
  }

  /** `counts` holds the word counts of `done`, keyed in order of first occurrence. */
  ghost predicate Counted(counts: JsMap.Entries<string, nat>, done: seq<string>) {
    JsMap.Valid(counts) && JsMap.Keys(counts) == Dedup(done) &&
    forall w :: JsMap.Lookup(counts, w) == Tally(done, w)
  }

  /** `(acc[word] || 0) + 1`: one more than the stored count, or 1 for a word not yet counted. */
  function NextCount(counts: JsMap.Entries<string, nat>, word: string): (count: nat)
    ensures JsMap.Lookup(counts, word).None? ==> count == 1
    ensures JsMap.Lookup(counts, word).Some? ==> count == JsMap.Lookup(counts, word).value + 1
  {
    (match JsMap.Lookup(counts, word) case None => 0 case Some(n) => n) + 1
  }

  /** The empty object counts no words. */
  lemma CountedNone()
    ensures Counted([], [])
  {
    forall w ensures JsMap.Lookup([], w) == Tally([], w) {
    }
  }

  /** Counting one more word keeps the loop invariant of `CountWords`. */
  lemma CountStep(done: seq<string>, word: string, counts: JsMap.Entries<string, nat>)
    requires Counted(counts, done)
    ensures Counted(JsMap.Set(counts, word, NextCount(counts, word)), done + [word])
  {
    CountKeys(done, word, NextCount(counts, word), counts);
    CountLookups(done, word, NextCount(counts, word), counts);
  }

  /** Counting one more word. */
  lemma OccurrencesSnoc(done: seq<string>, word: string, w: string)
    ensures Occurrences(done + [word], w) == Occurrences(done, w) + (if word == w then 1 else 0)
  {
    assert (done + [word])[..|done + [word]| - 1] == done;
  }

  /** Setting a word's count keeps the keys in order of first occurrence. */
  lemma CountKeys(done: seq<string>, word: string, v: nat, counts: JsMap.Entries<string, nat>)
    requires JsMap.Keys(counts) == Dedup(done)
    ensures JsMap.Keys(JsMap.Set(counts, word, v)) == Dedup(done + [word])
  {
    AddAllSnoc([], done, word);
    DedupMembers(done, word);
  }

  /** Counting `word` after `done`, where `count` is `(acc[word] || 0) + 1`, gives the counts of `done + [word]`. */
  lemma CountLookups(done: seq<string>, word: string, count: nat, counts: JsMap.Entries<string, nat>)
    requires forall w :: JsMap.Lookup(counts, w) == Tally(done, w)
    requires count == NextCount(counts, word)
    ensures forall w :: JsMap.Lookup(JsMap.Set(counts, word, count), w) == Tally(done + [word], w)
  {
    assert JsMap.Lookup(counts, word) == Tally(done, word);
    assert count == Occurrences(done, word) + 1;
    var next := JsMap.Set(counts, word, count);
    forall w ensures JsMap.Lookup(next, w) == Tally(done + [word], w) {
      if w == word {
        TallyNext(done, word);
      } else {
        TallyOther(done, word, w);
      }
    }
  }

  /** One more occurrence of `word` adds one to its count. */
  lemma TallyNext(done: seq<string>, word: string)
    ensures Tally(done + [word], word) == Some(Occurrences(done, word) + 1)
  {
    OccurrencesSnoc(done, word, word);
  }

  /** An occurrence of `word` leaves the count of every other word as it was. */
  lemma TallyOther(done: seq<string>, word: string, w: string)
    requires w != word
    ensures Tally(done + [word], w) == Tally(done, w)
  {
    OccurrencesSnoc(done, word, w);
  }

  /** `employeeRole` of the script. */
  function EmployeeRole(): RoleNode {
    AddPermission(CreateRole("Employee"), "Read_Documents")
  }

  /** `managerRole` of the script. */
  function ManagerRole(): RoleNode {
    AddRole(AddPermission(CreateRole("Manager"), "Approve_ Documents"), EmployeeRole())
  }

  /** `adminRole` of the script. */
  function AdminRole(): RoleNode {
    AddRole(AddPermission(CreateRole("Administrator"), "Delete_Documents"), ManagerRole())
  }

  /** `getPermissions(adminRole)`: the chain's permissions from the top down. */
  lemma AdminPermissions()
    ensures GetPermissions(AdminRole()) == ["Delete_Documents", "Approve_ Documents", "Read_Documents"]
  {
    AdminWalk();
    ChainPermissions(AdminRole(), ["Delete_Documents", "Approve_ Documents", "Read_Documents"]);
  }

  /** A role whose walk meets three distinct permissions grants exactly those, in walk order. */
  lemma ChainPermissions(role: RoleNode, all: seq<string>)
    requires Flatten(role) == all && |all| == 3
    requires all[0] != all[1] && all[0] != all[2] && all[1] != all[2]
    ensures GetPermissions(role) == all
  {
    assert NoDup(all) by {
      forall i, j | 0 <= i < j < |all| ensures all[i] != all[j] {
        assert (i, j) == (0, 1) || (i, j) == (0, 2) || (i, j) == (1, 2);
      }
    }
    DedupFresh(all);
    PermissionsArePreorder(role);
  }

  /** The walk over `adminRole` meets each permission once, from the top down. */
  lemma AdminWalk()
    ensures Flatten(AdminRole()) == ["Delete_Documents", "Approve_ Documents", "Read_Documents"]
  {
    var manager, admin := ManagerRole(), AdminRole();
    ManagerWalk();
    assert admin.subRoles == [manager] && admin.permissions == ["Delete_Documents"];
    assert FlattenFirst(admin, 1) == FlattenFirst(admin, 0) + Flatten(manager);
  }

  /** The walk over `managerRole`. */
  lemma ManagerWalk()
    ensures Flatten(ManagerRole()) == ["Approve_ Documents", "Read_Documents"]
  {
    var employee, manager := EmployeeRole(), ManagerRole();
    assert Flatten(employee) == ["Read_Documents"] + FlattenFirst(employee, 0);
    assert manager.subRoles == [employee] && manager.permissions == ["Approve_ Documents"];
    assert FlattenFirst(manager, 1) == FlattenFirst(manager, 0) + Flatten(employee);
  }
}
