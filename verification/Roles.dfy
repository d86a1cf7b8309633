/**
  Compilation of custom roles to permits (internal/cedar/permissions.go and
  internal/cedar/store.go, GeneratePolicyFromPermissions and writePermitBlock).
 */
module Roles {
  import opened Wrappers
  import opened Policies

  const PERMISSION_TO_ACTION: map<string, string> := map[
    "cluster.create" := "CreateManagedHostedCluster",
    "cluster.list" := "ListManagedHostedClusters",
    "cluster.get" := "GetManagedHostedCluster",
    "cluster.update" := "UpdateManagedHostedCluster",
    "cluster.delete" := "DeleteManagedHostedCluster",
    "cluster.kubeconfig" := "GetKubeConfig",
    "policy.manage" := "ManagePolicies"]

  predicate IsCollectionPermission(p: string) {
    p == "cluster.list" || p == "cluster.create"
  }

  /** The known permissions' actions, in order; unknown permissions are dropped. */
  function ActionsOf(permissions: seq<string>): seq<string> {
    if permissions == [] then []
    else
      var p := permissions[|permissions| - 1];
      ActionsOf(permissions[..|permissions| - 1])
      + if p in PERMISSION_TO_ACTION then [PERMISSION_TO_ACTION[p]] else []
  }

  function Filtered(permissions: seq<string>, collection: bool): seq<string> {
    if permissions == [] then []
    else
      var p := permissions[|permissions| - 1];
      Filtered(permissions[..|permissions| - 1], collection)
      + if IsCollectionPermission(p) == collection then [p] else []
  }

  function Block(permissions: seq<string>, conditions: seq<string>, userID: string, projectID: string): Permit {
    Permit(UserEntity(userID), OneOf(ActionsOf(permissions)), ProjectEntity(projectID), conditions)
  }

  /** The permits of a role: collection permissions are never subject to conditions. */
  function Compile(permissions: seq<string>, conditions: seq<string>, userID: string, projectID: string): seq<Permit> {
    var collection, resource := Filtered(permissions, true), Filtered(permissions, false);
    (if collection == [] then [] else [Block(collection, [], userID, projectID)])
    + (if resource == [] then [] else [Block(resource, conditions, userID, projectID)])
  }

  lemma {:induction false} ActionsOfMembers(permissions: seq<string>, action: string)
    ensures action in ActionsOf(permissions) <==>
              exists p :: p in permissions && p in PERMISSION_TO_ACTION && PERMISSION_TO_ACTION[p] == action
  {
    if permissions != [] {
      var init, last := permissions[..|permissions| - 1], permissions[|permissions| - 1];
      ActionsOfMembers(init, action);
      assert forall p :: p in permissions <==> p in init || p == last;
    }
  }

  lemma {:induction false} FilteredMembers(permissions: seq<string>, collection: bool, p: string)
    ensures p in Filtered(permissions, collection) <==> p in permissions && IsCollectionPermission(p) == collection
  {
    if permissions != [] {
      var init, last := permissions[..|permissions| - 1], permissions[|permissions| - 1];
      FilteredMembers(init, collection, p);
      assert p in permissions <==> p in init || p == last;
    }
  }

  /** `p` grants the query: it maps to its action and is unconditional or unconditioned. */
  ghost predicate Grants(p: string, conditions: seq<string>, q: Query, eval: Conditions) {
    && p in PERMISSION_TO_ACTION && PERMISSION_TO_ACTION[p] == q.action
    && (IsCollectionPermission(p) || forall c :: c in conditions ==> eval(c, q) == True)
  }

  ghost predicate RoleAllows(permissions: seq<string>, conditions: seq<string>, userID: string, projectID: string,
                             q: Query, parents: Parents, eval: Conditions)
  {
    && q.principal == UserEntity(userID)
    && In(q.resource, ProjectEntity(projectID), parents)
    && exists p :: p in permissions && Grants(p, conditions, q, eval)
  }

  /** Some collection permission -- or some other one -- grants the query. */
  ghost predicate GrantedBy(permissions: seq<string>, collection: bool, conditions: seq<string>, q: Query,
                            eval: Conditions)
  {
    exists p :: p in permissions && IsCollectionPermission(p) == collection && Grants(p, conditions, q, eval)
  }

  lemma CollectionBlock(permissions: seq<string>, conditions: seq<string>, userID: string, projectID: string,
                        q: Query, parents: Parents, eval: Conditions)
    ensures Satisfied(Block(Filtered(permissions, true), [], userID, projectID), q, parents, eval) <==>
              q.principal == UserEntity(userID) && In(q.resource, ProjectEntity(projectID), parents)
              && GrantedBy(permissions, true, conditions, q, eval)
  {
    BlockActions(permissions, true, q.action);
  }

  lemma ResourceBlock(permissions: seq<string>, conditions: seq<string>, userID: string, projectID: string,
                      q: Query, parents: Parents, eval: Conditions)
    ensures Satisfied(Block(Filtered(permissions, false), conditions, userID, projectID), q, parents, eval) <==>
              q.principal == UserEntity(userID) && In(q.resource, ProjectEntity(projectID), parents)
              && GrantedBy(permissions, false, conditions, q, eval)
  {
    BlockActions(permissions, false, q.action);
  }

  lemma BlockActions(permissions: seq<string>, collection: bool, action: string)
    ensures action in ActionsOf(Filtered(permissions, collection)) <==>
              exists p :: p in permissions && IsCollectionPermission(p) == collection
                          && p in PERMISSION_TO_ACTION && PERMISSION_TO_ACTION[p] == action
  {
    ActionsOfMembers(Filtered(permissions, collection), action);
    forall p | p in PERMISSION_TO_ACTION
      ensures p in Filtered(permissions, collection) <==> p in permissions && IsCollectionPermission(p) == collection
    {
      FilteredMembers(permissions, collection, p);
    }
  }

  /** An empty block would be satisfied by nothing, so leaving it out changes nothing. */
  lemma CompileIsBothBlocks(permissions: seq<string>, conditions: seq<string>, userID: string, projectID: string,
                            q: Query, parents: Parents, eval: Conditions)
    ensures Allows(Compile(permissions, conditions, userID, projectID), q, parents, eval) <==>
              || Satisfied(Block(Filtered(permissions, true), [], userID, projectID), q, parents, eval)
              || Satisfied(Block(Filtered(permissions, false), conditions, userID, projectID), q, parents, eval)
  {
    var ps := Compile(permissions, conditions, userID, projectID);
    var b1, b2 := Block(Filtered(permissions, true), [], userID, projectID),
                  Block(Filtered(permissions, false), conditions, userID, projectID);
    if Satisfied(b1, q, parents, eval) {
      assert ps[0] == b1;
    }
    if Satisfied(b2, q, parents, eval) {
      assert ps[|ps| - 1] == b2;
    }
  }

  /** Compilation preserves meaning: the compiled permits allow exactly what the role says,
      for every permission and condition list, known or unknown, with or without repeats. */
  lemma CompileMeaning(permissions: seq<string>, conditions: seq<string>, userID: string, projectID: string,
                       q: Query, parents: Parents, eval: Conditions)
    ensures Allows(Compile(permissions, conditions, userID, projectID), q, parents, eval)
       <==> RoleAllows(permissions, conditions, userID, projectID, q, parents, eval)
  {
    CompileIsBothBlocks(permissions, conditions, userID, projectID, q, parents, eval);
    CollectionBlock(permissions, conditions, userID, projectID, q, parents, eval);
    ResourceBlock(permissions, conditions, userID, projectID, q, parents, eval);
    if exists p :: p in permissions && Grants(p, conditions, q, eval) {
      var p :| p in permissions && Grants(p, conditions, q, eval);
      assert GrantedBy(permissions, IsCollectionPermission(p), conditions, q, eval);
    }
  }

  /** Which action each permission allows, and that only two of them escape the conditions (`met`
      says whether all of those evaluate to true). */
  predicate AllowedBy(p: string, action: string, met: bool) {
    || (p == "cluster.list" && action == "ListManagedHostedClusters")
    || (p == "cluster.create" && action == "CreateManagedHostedCluster")
    || (met && (|| (p == "cluster.get" && action == "GetManagedHostedCluster")
                || (p == "cluster.update" && action == "UpdateManagedHostedCluster")
                || (p == "cluster.delete" && action == "DeleteManagedHostedCluster")
                || (p == "cluster.kubeconfig" && action == "GetKubeConfig")
                || (p == "policy.manage" && action == "ManagePolicies")))
  }

  lemma GrantsLiterally(p: string, conditions: seq<string>, q: Query, eval: Conditions)
    ensures Grants(p, conditions, q, eval)
       <==> AllowedBy(p, q.action, forall c :: c in conditions ==> eval(c, q) == True)
  {
  }

  /** The compiled permits in the permissions' and actions' own names. */
  lemma CompileLiterally(permissions: seq<string>, conditions: seq<string>, userID: string, projectID: string,
                         q: Query, parents: Parents, eval: Conditions)
    ensures Allows(Compile(permissions, conditions, userID, projectID), q, parents, eval) <==>
              && q.principal == Entity("HCP::User", userID)
              && In(q.resource, Entity("HCP::Project", projectID), parents)
              && exists p :: p in permissions
                    && AllowedBy(p, q.action, forall c :: c in conditions ==> eval(c, q) == True)
  {
    CompileMeaning(permissions, conditions, userID, projectID, q, parents, eval);
    forall p
      ensures Grants(p, conditions, q, eval)
         <==> AllowedBy(p, q.action, forall c :: c in conditions ==> eval(c, q) == True)
    {
      GrantsLiterally(p, conditions, q, eval);
    }
  }

  /** With a condition that does not hold, only the two collection actions are ever allowed. */
  lemma OnlyCollectionsEscape(permissions: seq<string>, conditions: seq<string>, userID: string, projectID: string,
                              q: Query, parents: Parents, eval: Conditions)
    requires exists c :: c in conditions && eval(c, q) != True
    ensures Allows(Compile(permissions, conditions, userID, projectID), q, parents, eval) <==>
              && q.principal == Entity("HCP::User", userID)
              && In(q.resource, Entity("HCP::Project", projectID), parents)
              && (|| ("cluster.list" in permissions && q.action == "ListManagedHostedClusters")
                  || ("cluster.create" in permissions && q.action == "CreateManagedHostedCluster"))
  {
    CompileLiterally(permissions, conditions, userID, projectID, q, parents, eval);
    if "cluster.list" in permissions && q.action == "ListManagedHostedClusters" {
      assert AllowedBy("cluster.list", q.action, false);
    }
    if "cluster.create" in permissions && q.action == "CreateManagedHostedCluster" {
      assert AllowedBy("cluster.create", q.action, false);
    }
  }

  /** Neither the order nor the repetition of permissions matters. */
  lemma PermissionsAreASet(perms1: seq<string>, perms2: seq<string>, conditions: seq<string>, userID: string,
                           projectID: string, q: Query, parents: Parents, eval: Conditions)
    requires forall p :: p in perms1 <==> p in perms2
    ensures Allows(Compile(perms1, conditions, userID, projectID), q, parents, eval)
       <==> Allows(Compile(perms2, conditions, userID, projectID), q, parents, eval)
  {
    CompileMeaning(perms1, conditions, userID, projectID, q, parents, eval);
    CompileMeaning(perms2, conditions, userID, projectID, q, parents, eval);
  }

  // The store's own code.

  /** Success exactly when every permission is known; otherwise the first unknown one. */
  method ValidatePermissions(permissions: seq<string>) returns (unknown: Option<string>)
    ensures unknown.None? <==> forall p :: p in permissions ==> p in PERMISSION_TO_ACTION
    ensures unknown.Some? ==>
              exists i :: 0 <= i < |permissions| && permissions[i] == unknown.value
                  && unknown.value !in PERMISSION_TO_ACTION
                          && forall j :: 0 <= j < i ==> permissions[j] in PERMISSION_TO_ACTION
  {
    for i := 0 to |permissions|
      invariant forall j :: 0 <= j < i ==> permissions[j] in PERMISSION_TO_ACTION
    {
      if permissions[i] !in PERMISSION_TO_ACTION {
        return Some(permissions[i]);
      }
    }
    unknown := None;
  }

  method MapPermissionsToActions(permissions: seq<string>) returns (actions: seq<string>)
    ensures actions == ActionsOf(permissions)
  {
    actions := [];
    for i := 0 to |permissions|
      invariant actions == ActionsOf(permissions[..i])
    {
      assert permissions[..i + 1][..i] == permissions[..i];
      if permissions[i] in PERMISSION_TO_ACTION {
        actions := actions + [PERMISSION_TO_ACTION[permissions[i]]];
      }
    }
    assert permissions[..|permissions|] == permissions;
  }

  method WritePermitBlock(b: string, actions: seq<string>, conditions: seq<string>, userID: string, projectID: string)
    returns (r: string)
    ensures r == b + PermitText(Permit(UserEntity(userID), OneOf(actions), ProjectEntity(projectID), conditions))
  {
    var actionTexts := ActionTexts(actions);
    var head := "permit (\n    principal == " + EntityText(UserEntity(userID))
      + ",\n    action" + (" in [" + Join(actionTexts, ", ") + "]")
      + ",\n    resource in " + EntityText(ProjectEntity(projectID)) + "\n)";
    var tail := "";
    for i := 0 to |conditions|
      invariant tail == WhenText(conditions[..i])
    {
      assert conditions[..i + 1][..i] == conditions[..i];
      tail := tail + "\nwhen { " + conditions[i] + " }";
    }
    assert conditions[..|conditions|] == conditions;
    r := b + (head + tail + ";\n");
  }

  /** The generated text is the printed form of the compiled permits. */
  method GeneratePolicyFromPermissions(permissions: seq<string>, conditions: seq<string>, userID: string,
                                       projectID: string)
    returns (text: string)
    ensures text == PermitsText(Compile(permissions, conditions, userID, projectID))
  {
    var collection, resource := [], [];
    for i := 0 to |permissions|
      invariant collection == Filtered(permissions[..i], true)
      invariant resource == Filtered(permissions[..i], false)
    {
      assert permissions[..i + 1][..i] == permissions[..i];
      if IsCollectionPermission(permissions[i]) {
        collection := collection + [permissions[i]];
      } else {
        resource := resource + [permissions[i]];
      }
    }
    assert permissions[..|permissions|] == permissions;
    text := "";
    ghost var done: seq<Permit> := [];
    if |collection| > 0 {
      var actions := MapPermissionsToActions(collection);
      text := WritePermitBlock(text, actions, [], userID, projectID);
      done := [Block(collection, [], userID, projectID)];
      PermitsTextAppend([], done[0]);
    }
    if |resource| > 0 {
      var actions := MapPermissionsToActions(resource);
      text := WritePermitBlock(text, actions, conditions, userID, projectID);
      PermitsTextAppend(done, Block(resource, conditions, userID, projectID));
      done := done + [Block(resource, conditions, userID, projectID)];
    }
    assert done == Compile(permissions, conditions, userID, projectID);
  }

  lemma PermitsTextAppend(ps: seq<Permit>, p: Permit)
    ensures PermitsText(ps + [p]) == PermitsText(ps) + PermitText(p)
  {
    assert (ps + [p])[..|ps|] == ps;
  }
}
