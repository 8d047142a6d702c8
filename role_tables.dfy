/**
 * The three concrete role tables of `05_composite` and what the scripts
 * compute from them: the linear chain of `problem.js`, the diamond of
 * `problem_tree.js` and the object-keyed chain of `problem_usingMap.js`.
 */
module RoleTables {
  import opened RoleGraph
  import Seqs

  /** The `roles` object of `problem.js`. */
  const ChainRoles: Table<string> := map[
    "Employee" := Role(["read_documents"], []),
    "Manager" := Role(["approve_documents"], ["Employee"]),
    "Administrator" := Role(["delete_documents"], ["Manager"])]

  /** Inheritance depth in `ChainRoles`. */
  const ChainRank: map<string, nat> := map["Employee" := 0, "Manager" := 1, "Administrator" := 2]

  /** `ChainRoles` is acyclic. */
  lemma ChainRanked()
    ensures Ranked(ChainRoles, ChainRank)
  {
    ChainFacts();
    forall k | k in ChainRoles
      ensures k in ChainRank && forall c :: c in ChainRoles[k].inherits && c in ChainRoles ==> c in ChainRank && ChainRank[c] < ChainRank[k]
    {
      assert k == "Employee" || k == "Manager" || k == "Administrator";
    }
  }

  /** A display line shows the role's key itself. */
  function NameIsKey(name: string): string {
    name
  }

  /** The entries of `ChainRoles`. */
  lemma ChainFacts()
    ensures "Employee" in ChainRoles && ChainRoles["Employee"] == Role(["read_documents"], [])
    ensures "Manager" in ChainRoles && ChainRoles["Manager"] == Role(["approve_documents"], ["Employee"])
    ensures "Administrator" in ChainRoles && ChainRoles["Administrator"] == Role(["delete_documents"], ["Manager"])
    ensures "Intern" !in ChainRoles
  {
  }

  /** `getPermissions("Administrator")` in `problem.js`, and the permissions of a name not in the table. */
  lemma ChainAdministrator()
    ensures Ranked(ChainRoles, ChainRank)
    ensures Seqs.Dedup(Reach(ChainRoles, ChainRank, "Administrator"))
         == ["delete_documents", "approve_documents", "read_documents"]
    ensures Seqs.Dedup(Reach(ChainRoles, ChainRank, "Intern")) == []
  {
    ChainRanked();
    ChainFacts();
    var roles, rank := ChainRoles, ChainRank;
    assert Reach(roles, rank, "Intern") == [];
    assert Seqs.Dedup<string>([]) == Seqs.AddAll<string>([], []) == [];
    ReachLeaf(roles, rank, "Employee");
    ReachSingleHeir(roles, rank, "Manager");
    ReachSingleHeir(roles, rank, "Administrator");
    var admin := ["delete_documents", "approve_documents", "read_documents"];
    assert ["delete_documents"] + (["approve_documents"] + ["read_documents"]) == admin;
    assert Seqs.NoDup(admin);
    Seqs.DedupFresh(admin);
  }

  /** `displayRoleHierarchy("Administrator")` in `problem.js`: two lines for each of the three roles on the chain. */
  lemma ChainDisplay()
    ensures Ranked(ChainRoles, ChainRank)
    ensures |Display(ChainRoles, ChainRank, NameIsKey, "Administrator", "")| == 6
  {
    ChainRanked();
    ChainFacts();
    var roles, rank := ChainRoles, ChainRank;
    DisplayLeaf(roles, rank, NameIsKey, "Employee", "    ");
    DisplaySingleHeir(roles, rank, NameIsKey, "Manager", "  ");
    DisplaySingleHeir(roles, rank, NameIsKey, "Administrator", "");
    assert "" + "  " == "  " && "  " + "  " == "    ";
  }

  /** The `roles` object of `problem_tree.js`: Manager and Auditor both inherit Employee. */
  const DiamondRoles: Table<string> := map[
    "Employee" := Role(["read_documents"], []),
    "Manager" := Role(["approve_documents"], ["Employee"]),
    "Auditor" := Role(["view_audit_logs"], ["Employee"]),
    "Administrator" := Role(["delete_documents"], ["Manager", "Auditor"])]

  /** Inheritance depth in `DiamondRoles`. */
  const DiamondRank: map<string, nat> := map["Employee" := 0, "Manager" := 1, "Auditor" := 1, "Administrator" := 2]

  /** `DiamondRoles` is acyclic. */
  lemma DiamondRanked()
    ensures Ranked(DiamondRoles, DiamondRank)
  {
    DiamondFacts();
    forall k | k in DiamondRoles
      ensures k in DiamondRank && forall c :: c in DiamondRoles[k].inherits && c in DiamondRoles ==> c in DiamondRank && DiamondRank[c] < DiamondRank[k]
    {
      assert k == "Employee" || k == "Manager" || k == "Auditor" || k == "Administrator";
      if k == "Administrator" {
        assert forall c :: c in DiamondRoles[k].inherits ==> c == "Manager" || c == "Auditor";
      }
    }
  }

  /** The entries of `DiamondRoles`. */
  lemma DiamondFacts()
    ensures "Employee" in DiamondRoles && DiamondRoles["Employee"] == Role(["read_documents"], [])
    ensures "Manager" in DiamondRoles && DiamondRoles["Manager"] == Role(["approve_documents"], ["Employee"])
    ensures "Auditor" in DiamondRoles && DiamondRoles["Auditor"] == Role(["view_audit_logs"], ["Employee"])
    ensures "Administrator" in DiamondRoles && DiamondRoles["Administrator"] == Role(["delete_documents"], ["Manager", "Auditor"])
  {
  }

  /** What Manager and Auditor reach in `DiamondRoles`. */
  lemma DiamondMiddle()
    requires Ranked(DiamondRoles, DiamondRank)
    ensures Reach(DiamondRoles, DiamondRank, "Manager") == ["approve_documents", "read_documents"]
    ensures Reach(DiamondRoles, DiamondRank, "Auditor") == ["view_audit_logs", "read_documents"]
  {
    DiamondFacts();
    var roles, rank := DiamondRoles, DiamondRank;
    ReachLeaf(roles, rank, "Employee");
    ReachSingleHeir(roles, rank, "Manager");
    ReachSingleHeir(roles, rank, "Auditor");
  }

  /** Everything `collectPermissions("Administrator")` meets in `problem_tree.js`, in order. */
  lemma DiamondReach()
    requires Ranked(DiamondRoles, DiamondRank)
    ensures Reach(DiamondRoles, DiamondRank, "Administrator")
         == ["delete_documents", "approve_documents", "read_documents", "view_audit_logs", "read_documents"]
  {
    DiamondMiddle();
    DiamondFacts();
    ReachTwoHeirs(DiamondRoles, DiamondRank, "Administrator");
    assert ["delete_documents"] + ["approve_documents", "read_documents"] + ["view_audit_logs", "read_documents"]
        == ["delete_documents", "approve_documents", "read_documents", "view_audit_logs", "read_documents"];
  }

  /** `getPermissions("Administrator")` in `problem_tree.js`: Employee's permission, met twice, appears once. */
  lemma DiamondAdministrator()
    ensures Ranked(DiamondRoles, DiamondRank)
    ensures Seqs.Dedup(Reach(DiamondRoles, DiamondRank, "Administrator"))
         == ["delete_documents", "approve_documents", "read_documents", "view_audit_logs"]
  {
    DiamondRanked();
    DiamondReach();
    var firstFour := ["delete_documents", "approve_documents", "read_documents", "view_audit_logs"];
    assert firstFour + ["read_documents"]
        == ["delete_documents", "approve_documents", "read_documents", "view_audit_logs", "read_documents"];
    assert Seqs.NoDup(firstFour);
    assert firstFour[2] == "read_documents";
    Seqs.DedupRepeat(firstFour, "read_documents");
  }

  /**
   * `displayRoleHierarchy("Administrator")` in `problem_tree.js`: Employee is
   * drawn under both Manager and Auditor, so the tree has five roles and ten
   * lines; Manager is drawn as a middle child and Auditor as the last.
   */
  lemma DiamondTree()
    ensures Ranked(DiamondRoles, DiamondRank)
    ensures var lines := Tree(DiamondRoles, DiamondRank, NameIsKey, "Administrator", "", true);
      |lines| == 10 &&
      lines[2..6] == Tree(DiamondRoles, DiamondRank, NameIsKey, "Manager", ChildPrefix("", true), false) &&
      lines[6..] == Tree(DiamondRoles, DiamondRank, NameIsKey, "Auditor", ChildPrefix("", true), true)
    ensures TreeWithPermissions(DiamondRoles, DiamondRank, NameIsKey, "Administrator", "", true)
         == Tree(DiamondRoles, DiamondRank, NameIsKey, "Administrator", "", true)
  {
    DiamondRanked();
    DiamondFacts();
    var roles, rank := DiamondRoles, DiamondRank;
    var top := ChildPrefix("", true);
    TreeOneKid(roles, rank, NameIsKey, "Manager", top, false);
    TreeOneKid(roles, rank, NameIsKey, "Auditor", top, true);
    TreeTwoKids(roles, rank, NameIsKey, "Administrator", "", true);
    WithPermissionsSameLines(roles, rank, NameIsKey, "Administrator", "", true);
  }

  /** A role object of `problem_usingMap.js`; `id` stands for its identity. */
  datatype RoleObject = RoleObject(id: nat, name: string)

  const EmployeeObject := RoleObject(1, "Employee")
  const ManagerObject := RoleObject(2, "Manager")
  const AdministratorObject := RoleObject(3, "Administrator")

  /** The `roles` Map of `problem_usingMap.js`, keyed by role object. */
  const ObjectRoles: Table<RoleObject> := map[
    EmployeeObject := Role(["read_documents"], []),
    ManagerObject := Role(["approve_documents"], [EmployeeObject]),
    AdministratorObject := Role(["delete_documents"], [ManagerObject])]

  /** Inheritance depth in `ObjectRoles`. */
  const ObjectRank: map<RoleObject, nat> := map[EmployeeObject := 0, ManagerObject := 1, AdministratorObject := 2]

  /** `ObjectRoles` is acyclic. */
  lemma ObjectRanked()
    ensures Ranked(ObjectRoles, ObjectRank)
  {
    ObjectFacts();
    forall k | k in ObjectRoles
      ensures k in ObjectRank && forall c :: c in ObjectRoles[k].inherits && c in ObjectRoles ==> c in ObjectRank && ObjectRank[c] < ObjectRank[k]
    {
      assert k == EmployeeObject || k == ManagerObject || k == AdministratorObject;
    }
  }

  /** The entries of `ObjectRoles`. */
  lemma ObjectFacts()
    ensures EmployeeObject in ObjectRoles && ObjectRoles[EmployeeObject] == Role(["read_documents"], [])
    ensures ManagerObject in ObjectRoles && ObjectRoles[ManagerObject] == Role(["approve_documents"], [EmployeeObject])
    ensures AdministratorObject in ObjectRoles && ObjectRoles[AdministratorObject] == Role(["delete_documents"], [ManagerObject])
    ensures RoleObject(4, "Administrator") !in ObjectRoles
  {
  }

  /** The name a display line shows for a role object: `roleObj.name`. */
  function ObjectName(o: RoleObject): string {
    o.name
  }

  /**
   * `getPermissions(Administrator)` in `problem_usingMap.js`; another
   * object with the same name is not in the Map and has no permissions.
   */
  lemma ObjectAdministrator()
    ensures Ranked(ObjectRoles, ObjectRank)
    ensures Seqs.Dedup(Reach(ObjectRoles, ObjectRank, AdministratorObject))
         == ["delete_documents", "approve_documents", "read_documents"]
    ensures Seqs.Dedup(Reach(ObjectRoles, ObjectRank, RoleObject(4, "Administrator"))) == []
  {
    ObjectRanked();
    ObjectFacts();
    var roles, rank := ObjectRoles, ObjectRank;
    var stranger := RoleObject(4, "Administrator");
    assert Reach(roles, rank, stranger) == [];
    assert Seqs.Dedup<string>([]) == Seqs.AddAll<string>([], []) == [];
    ObjectReach();
    var admin := ["delete_documents", "approve_documents", "read_documents"];
    assert Seqs.NoDup(admin);
    Seqs.DedupFresh(admin);
  }

  /** What each role object reaches. */
  lemma ObjectReach()
    requires Ranked(ObjectRoles, ObjectRank)
    ensures Reach(ObjectRoles, ObjectRank, AdministratorObject) == ["delete_documents", "approve_documents", "read_documents"]
  {
    ObjectFacts();
    var roles, rank := ObjectRoles, ObjectRank;
    ReachLeaf(roles, rank, EmployeeObject);
    ReachSingleHeir(roles, rank, ManagerObject);
    ReachSingleHeir(roles, rank, AdministratorObject);
    assert ["delete_documents"] + (["approve_documents"] + ["read_documents"])
        == ["delete_documents", "approve_documents", "read_documents"];
  }

  /**
   * `displayRoleHierarchy(Administrator)` in `problem_usingMap.js` prints,
   * through `roleObj.name`, exactly the lines `problem.js` prints for the
   * string-keyed chain.
   */
  lemma ObjectDisplay()
    ensures Ranked(ObjectRoles, ObjectRank) && Ranked(ChainRoles, ChainRank)
    ensures Display(ObjectRoles, ObjectRank, ObjectName, AdministratorObject, "")
         == Display(ChainRoles, ChainRank, NameIsKey, "Administrator", "")
  {
    ObjectRanked();
    ChainRanked();
    ObjectFacts();
    ChainFacts();
    var roles, rank := ObjectRoles, ObjectRank;
    assert "" + "  " == "  " && "  " + "  " == "    ";
    DisplayLeaf(roles, rank, ObjectName, EmployeeObject, "    ");
    DisplayLeaf(ChainRoles, ChainRank, NameIsKey, "Employee", "    ");
    assert Display(roles, rank, ObjectName, EmployeeObject, "    ")
        == Display(ChainRoles, ChainRank, NameIsKey, "Employee", "    ");
    DisplaySingleHeir(roles, rank, ObjectName, ManagerObject, "  ");
    DisplaySingleHeir(ChainRoles, ChainRank, NameIsKey, "Manager", "  ");
    assert Display(roles, rank, ObjectName, ManagerObject, "  ")
        == Display(ChainRoles, ChainRank, NameIsKey, "Manager", "  ");
    DisplaySingleHeir(roles, rank, ObjectName, AdministratorObject, "");
    DisplaySingleHeir(ChainRoles, ChainRank, NameIsKey, "Administrator", "");
  }
}
