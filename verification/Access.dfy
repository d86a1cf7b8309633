/**
  From attachments to access (internal/cedar/store.go, ResolvePolicies and
  resolveAttachmentPolicy, with the templates embedded from internal/cedar/templates): the
  policy text a project resolves to, the permits that text stands for, and who they let in.
 */
module Access {
  import opened Wrappers
  import opened DesireId
  import opened Policies
  import opened Roles
  import opened Templates
  import opened Attachments
  import Index = AttachmentIndex

  const ADMIN_ACTIONS := ["CreateManagedHostedCluster", "ListManagedHostedClusters", "GetManagedHostedCluster",
                          "UpdateManagedHostedCluster", "DeleteManagedHostedCluster", "GetKubeConfig"]

  const VIEWER_ACTIONS := ["ListManagedHostedClusters", "GetManagedHostedCluster"]

  const DEVELOPER_ACTIONS := ["ListManagedHostedClusters", "GetManagedHostedCluster", "GetKubeConfig"]

  /** What each template of the repository allows. */
  const TEMPLATES: map<string, Actions> := map[
    "service-admin" := AnyAction,
    "cluster-admin" := OneOf(ADMIN_ACTIONS),
    "cluster-viewer" := OneOf(VIEWER_ACTIONS),
    "developer" := OneOf(DEVELOPER_ACTIONS)]

  datatype CustomRole = CustomRole(permissions: seq<string>, conditions: seq<string>)

  /** Custom role documents, by id. */
  type CustomRoles = map<string, CustomRole>

  /** What a name in an attachment can stand for. */
  datatype Library = Library(templates: map<string, Actions>, roles: CustomRoles)

  function RoleDocID(projectID: string, roleName: string): string { projectID + ":" + roleName }

  // Policy text.

  function ActionClause(actions: Actions): string {
    match actions
    case AnyAction => "action"
    case OneOf(names) => "action in [\n        " + Join(ActionTexts(names), ",\n        ") + "\n    ]"
  }

  const BEFORE_PRINCIPAL := "permit (\n    principal == "

  const AFTER_RESOURCE := "\n);\n"

  function Middle(actions: Actions): string { ",\n    " + ActionClause(actions) + ",\n    resource in " }

  /** One permit in the templates' layout, around a principal and a resource text. */
  function TemplateLayout(principal: string, actions: Actions, resource: string): string {
    BEFORE_PRINCIPAL + (principal + (Middle(actions) + (resource + AFTER_RESOURCE)))
  }

  /** The file of a template. */
  function TemplateText(actions: Actions): string { TemplateLayout(PRINCIPAL, actions, RESOURCE) }

  /** The text of one attachment; none if it names a role that does not exist. */
  function AttachmentText(att: Attachment, projectID: string, lib: Library): Option<string> {
    if att.templateName in lib.templates then
      Some(Instantiate(TemplateText(lib.templates[att.templateName]), att.principal, projectID))
    else if RoleDocID(projectID, att.templateName) in lib.roles then
      var role := lib.roles[RoleDocID(projectID, att.templateName)];
      Some(PermitsText(Compile(role.permissions, role.conditions, att.principal, projectID)))
    else None
  }

  /** Each attachment's text on a line of its own, those without one left out. */
  function AttachmentLines(texts: seq<Option<string>>): string {
    if texts == [] then ""
    else
      var k := |texts| - 1;
      if texts[k].None? then AttachmentLines(texts[..k])
      else AttachmentLines(texts[..k]) + (texts[k].value + "\n")
  }

  function AttachmentTexts(atts: seq<Attachment>, projectID: string, lib: Library): seq<Option<string>> {
    seq(|atts|, i requires 0 <= i < |atts| => AttachmentText(atts[i], projectID, lib))
  }

  /** The project's whole policy text: the global policies on lines of their own come first. */
  function ResolvedText(globalPolicies: string, atts: seq<Attachment>, projectID: string, lib: Library): string {
    (if globalPolicies == "" then "" else globalPolicies + "\n")
    + AttachmentLines(AttachmentTexts(atts, projectID, lib))
  }

  method ResolveAttachmentPolicy(att: Attachment, projectID: string, lib: Library) returns (text: Option<string>)
    ensures text == AttachmentText(att, projectID, lib)
  {
    if att.templateName in lib.templates {
      var policy := TemplateText(lib.templates[att.templateName]);
      policy := ReplaceAll(policy, PRINCIPAL, PrincipalText(att.principal));
      policy := ReplaceAll(policy, RESOURCE, ResourceText(projectID));
      return Some(policy);
    }
    var docID := RoleDocID(projectID, att.templateName);
    if docID !in lib.roles {
      return None;
    }
    var policy := GeneratePolicyFromPermissions(lib.roles[docID].permissions, lib.roles[docID].conditions,
                                                att.principal, projectID);
    text := Some(policy);
  }

  method ResolvePolicies(globalPolicies: string, attachments: Lists<Attachment>, projectID: string, lib: Library)
    returns (resolved: string)
    ensures resolved == ResolvedText(globalPolicies, At(attachments, projectID), projectID, lib)
  {
    resolved := "";
    if globalPolicies != "" {
      resolved := globalPolicies + "\n";
    }
    ghost var global := resolved;
    var atts := At(attachments, projectID);
    ghost var texts := AttachmentTexts(atts, projectID, lib);
    if globalPolicies == "" && |atts| == 0 {
      return "";
    }
    for i := 0 to |atts|
      invariant resolved == global + AttachmentLines(texts[..i])
    {
      var policy := ResolveAttachmentPolicy(atts[i], projectID, lib);
      NextLine(global, texts, i);
      if policy.Some? {
        resolved := resolved + (policy.value + "\n");
      }
    }
    assert texts[..|atts|] == texts;
  }

  lemma NextLine(global: string, texts: seq<Option<string>>, i: nat)
    requires i < |texts|
    ensures global + AttachmentLines(texts[..i + 1])
         == if texts[i].None? then global + AttachmentLines(texts[..i])
            else (global + AttachmentLines(texts[..i])) + (texts[i].value + "\n")
  {
    assert texts[..i + 1][..i] == texts[..i];
  }

  /** The global policies are the first part of the text; the rest is the text without them. */
  lemma GlobalsComeFirst(globalPolicies: string, atts: seq<Attachment>, projectID: string, lib: Library)
    ensures var text := ResolvedText(globalPolicies, atts, projectID, lib);
            var rest := ResolvedText("", atts, projectID, lib);
            if globalPolicies == "" then text == rest
            else globalPolicies + "\n" <= text && text[|globalPolicies| + 1..] == rest
  {
    assert "" + AttachmentLines(AttachmentTexts(atts, projectID, lib))
        == AttachmentLines(AttachmentTexts(atts, projectID, lib));
  }

  /** Each attachment adds its own text and a newline at the end, or nothing. */
  lemma AttachmentAddsItsLine(globalPolicies: string, atts: seq<Attachment>, att: Attachment, projectID: string,
                              lib: Library)
    ensures ResolvedText(globalPolicies, atts + [att], projectID, lib)
         == ResolvedText(globalPolicies, atts, projectID, lib)
            + match AttachmentText(att, projectID, lib) case Some(text) => text + "\n" case None => ""
  {
    var texts := AttachmentTexts(atts + [att], projectID, lib);
    assert texts[..|atts|] == AttachmentTexts(atts, projectID, lib);
    NextLine(if globalPolicies == "" then "" else globalPolicies + "\n", texts, |atts|);
    assert texts[..|atts| + 1] == texts;
  }

  // The permits the text stands for.

  function AttachmentPermits(att: Attachment, projectID: string, lib: Library): seq<Permit> {
    if att.templateName in lib.templates then
      [Permit(UserEntity(att.principal), lib.templates[att.templateName], ProjectEntity(projectID), [])]
    else if RoleDocID(projectID, att.templateName) in lib.roles then
      var role := lib.roles[RoleDocID(projectID, att.templateName)];
      Compile(role.permissions, role.conditions, att.principal, projectID)
    else []
  }

  function ResolvedPermits(atts: seq<Attachment>, projectID: string, lib: Library): seq<Permit> {
    if atts == [] then []
    else
      var k := |atts| - 1;
      ResolvedPermits(atts[..k], projectID, lib) + AttachmentPermits(atts[k], projectID, lib)
  }

  lemma {:induction false} SkipPlain(t: string, s: string, a: string, b: string)
    requires '?' !in t
    ensures Simultaneous(t + s, PRINCIPAL, a, RESOURCE, b) == t + Simultaneous(s, PRINCIPAL, a, RESOURCE, b)
  {
    if t == "" {
      assert t + s == s;
    } else {
      assert (t + s)[1..] == t[1..] + s && (t + s)[0] == t[0];
      SkipPlain(t[1..], s, a, b);
      assert t == [t[0]] + t[1..];
    }
  }

  lemma FillPrincipal(s: string, a: string, b: string)
    ensures Simultaneous(PRINCIPAL + s, PRINCIPAL, a, RESOURCE, b) == a + Simultaneous(s, PRINCIPAL, a, RESOURCE, b)
  {
    assert PRINCIPAL <= PRINCIPAL + s && (PRINCIPAL + s)[|PRINCIPAL|..] == s;
  }

  lemma FillResource(s: string, a: string, b: string)
    ensures Simultaneous(RESOURCE + s, PRINCIPAL, a, RESOURCE, b) == b + Simultaneous(s, PRINCIPAL, a, RESOURCE, b)
  {
    ThePlaceholders();
    var t := RESOURCE + s;
    assert RESOURCE <= t && t[|RESOURCE|..] == s;
    assert !(PRINCIPAL <= t) by {
      assert t[1] == RESOURCE[1] != PRINCIPAL[1];
    }
  }

  lemma InstantiateFills(before: string, middle: string, after: string, userID: string, projectID: string)
    requires '?' !in before && '?' !in middle && '?' !in after && '?' !in userID && '?' !in projectID
    ensures Instantiate(before + (PRINCIPAL + (middle + (RESOURCE + after))), userID, projectID)
         == before + (PrincipalText(userID) + (middle + (ResourceText(projectID) + after)))
  {
    var a, b := PrincipalText(userID), ResourceText(projectID);
    InstantiateIsSimultaneous(before + (PRINCIPAL + (middle + (RESOURCE + after))), userID, projectID);
    SkipPlain(after, "", a, b);
    assert after + "" == after;
    FillResource(after, a, b);
    SkipPlain(middle, RESOURCE + after, a, b);
    FillPrincipal(middle + (RESOURCE + after), a, b);
    SkipPlain(before, PRINCIPAL + (middle + (RESOURCE + after)), a, b);
  }

  /** No action name holds a question mark. */
  ghost predicate PlainActions(actions: Actions) {
    actions.OneOf? ==> forall i :: 0 <= i < |actions.actions| ==> '?' !in actions.actions[i]
  }

  lemma {:induction false} JoinPlain(parts: seq<string>, sep: string)
    requires '?' !in sep && forall i :: 0 <= i < |parts| ==> '?' !in parts[i]
    ensures '?' !in Join(parts, sep)
  {
    if |parts| > 1 {
      JoinPlain(parts[..|parts| - 1], sep);
    }
  }

  lemma ClauseIsPlain(actions: Actions)
    requires PlainActions(actions)
    ensures '?' !in ActionClause(actions)
  {
    if actions.OneOf? {
      JoinPlain(ActionTexts(actions.actions), ",\n        ");
    }
  }

  /** Substituting into a template's text gives the text of the substituted permit: the
      rewriting of strings commutes with the layout. */
  lemma InstantiateFillsTheLayout(actions: Actions, userID: string, projectID: string)
    requires '?' !in userID && '?' !in projectID && PlainActions(actions)
    ensures Instantiate(TemplateText(actions), userID, projectID)
         == TemplateLayout(EntityText(UserEntity(userID)), actions, EntityText(ProjectEntity(projectID)))
  {
    ClauseIsPlain(actions);
    InstantiateFills(BEFORE_PRINCIPAL, Middle(actions), AFTER_RESOURCE, userID, projectID);
  }

  lemma TemplatesArePlain()
    ensures forall name :: name in TEMPLATES ==> PlainActions(TEMPLATES[name])
  {
  }

  /** The text of an attachment is the printed form of its permits. */
  lemma TextPrintsPermits(att: Attachment, projectID: string, lib: Library)
    requires (forall name :: name in lib.templates ==> PlainActions(lib.templates[name])) && '?' !in att.principal
              && '?' !in projectID
    ensures var ps := AttachmentPermits(att, projectID, lib);
            match AttachmentText(att, projectID, lib)
            case None => ps == []
            case Some(text) =>
              text == if att.templateName in lib.templates then
                        TemplateLayout(EntityText(ps[0].principal), ps[0].actions, EntityText(ps[0].resource))
                      else PermitsText(ps)
  {
    if att.templateName in lib.templates {
      InstantiateFillsTheLayout(lib.templates[att.templateName], att.principal, projectID);
    }
  }

  // Who gets in.

  /** What the attachment grants, in terms of its template or role. */
  ghost predicate AttachmentAllows(att: Attachment, projectID: string, lib: Library,
                                   q: Query, parents: Parents, eval: Conditions)
  {
    && q.principal == UserEntity(att.principal)
    && In(q.resource, ProjectEntity(projectID), parents)
    && if att.templateName in lib.templates then
         lib.templates[att.templateName].OneOf? ==> q.action in lib.templates[att.templateName].actions
       else
         && RoleDocID(projectID, att.templateName) in lib.roles
         && var role := lib.roles[RoleDocID(projectID, att.templateName)];
            exists p :: p in role.permissions && Grants(p, role.conditions, q, eval)
  }

  lemma AttachmentMeaning(att: Attachment, projectID: string, lib: Library,
                          q: Query, parents: Parents, eval: Conditions)
    ensures Allows(AttachmentPermits(att, projectID, lib), q, parents, eval)
       <==> AttachmentAllows(att, projectID, lib, q, parents, eval)
  {
    var ps := AttachmentPermits(att, projectID, lib);
    if att.templateName in lib.templates {
      assert Allows(ps, q, parents, eval) <==> Satisfied(ps[0], q, parents, eval);
    } else if RoleDocID(projectID, att.templateName) in lib.roles {
      var role := lib.roles[RoleDocID(projectID, att.templateName)];
      CompileMeaning(role.permissions, role.conditions, att.principal, projectID, q, parents, eval);
    }
  }

  // The embedded templates and custom roles in their own names.

  /** The two placeholders, and what takes their places. */
  lemma InstantiateLiterally(before: string, middle: string, after: string, userID: string, projectID: string)
    requires '?' !in before && '?' !in middle && '?' !in after && '?' !in userID && '?' !in projectID
    ensures Instantiate(before + ("?principal" + (middle + ("?resource" + after))), userID, projectID)
         == before + (("HCP::User" + "::\"" + userID + "\"")
                      + (middle + (("HCP::Project" + "::\"" + projectID + "\"") + after)))
  {
    InstantiateFills(before, middle, after, userID, projectID);
  }

  /** What each embedded template allows. */
  predicate TemplateAllows(name: string, action: string) {
    || name == "service-admin"
    || (action == "ListManagedHostedClusters" && name in ["cluster-admin", "cluster-viewer", "developer"])
    || (action == "GetManagedHostedCluster" && name in ["cluster-admin", "cluster-viewer", "developer"])
    || (action == "GetKubeConfig" && name in ["cluster-admin", "developer"])
    || (name == "cluster-admin" && action in ["CreateManagedHostedCluster", "UpdateManagedHostedCluster",
                                              "DeleteManagedHostedCluster"])
  }

  lemma TemplatesLiterally(name: string, action: string)
    ensures name in TEMPLATES <==> name in ["service-admin", "cluster-admin", "cluster-viewer", "developer"]
    ensures name in TEMPLATES ==>
              ((TEMPLATES[name].OneOf? ==> action in TEMPLATES[name].actions) <==> TemplateAllows(name, action))
  {
  }

  /** What an attachment grants, whole: an embedded template comes before any role of that name. */
  lemma AttachmentLiterally(att: Attachment, projectID: string, roles: CustomRoles,
                            q: Query, parents: Parents, eval: Conditions)
    ensures Allows(AttachmentPermits(att, projectID, Library(TEMPLATES, roles)), q, parents, eval) <==>
              && q.principal == Entity("HCP::User", att.principal)
              && In(q.resource, Entity("HCP::Project", projectID), parents)
              && if att.templateName in ["service-admin", "cluster-admin", "cluster-viewer", "developer"] then
                   TemplateAllows(att.templateName, q.action)
                 else
                   && projectID + ":" + att.templateName in roles
                   && var role := roles[projectID + ":" + att.templateName];
                      exists p :: p in role.permissions
                          && AllowedBy(p, q.action, forall c :: c in role.conditions ==> eval(c, q) == True)
  {
    var lib := Library(TEMPLATES, roles);
    AttachmentMeaning(att, projectID, lib, q, parents, eval);
    TemplatesLiterally(att.templateName, q.action);
    if att.templateName !in TEMPLATES && RoleDocID(projectID, att.templateName) in roles {
      RoleGrantsLiterally(roles[RoleDocID(projectID, att.templateName)], q, eval);
    }
  }

  lemma RoleGrantsLiterally(role: CustomRole, q: Query, eval: Conditions)
    ensures (exists p :: p in role.permissions && Grants(p, role.conditions, q, eval))
       <==> (exists p :: p in role.permissions
                  && AllowedBy(p, q.action, forall c :: c in role.conditions ==> eval(c, q) == True))
  {
    forall p
      ensures Grants(p, role.conditions, q, eval)
         <==> AllowedBy(p, q.action, forall c :: c in role.conditions ==> eval(c, q) == True)
    {
      GrantsLiterally(p, role.conditions, q, eval);
    }
  }

  /** For projects without a colon a role belongs to one project and one name. */
  lemma RoleDocIDInjective(project1: string, role1: string, project2: string, role2: string)
    requires ':' !in project1 && ':' !in project2
    ensures RoleDocID(project1, role1) == RoleDocID(project2, role2) <==> project1 == project2 && role1 == role2
  {
    if RoleDocID(project1, role1) == RoleDocID(project2, role2) {
      assert RoleDocID(project1, role1) == project1 + [':'] + role1;
      assert RoleDocID(project2, role2) == project2 + [':'] + role2;
      JoinInjective(project1, role1, project2, role2, ':');
    }
  }

  ghost predicate AnyOf<T(!new)>(s: seq<T>, p: T -> bool) {
    exists i :: 0 <= i < |s| && p(s[i])
  }

  lemma AnyOfSplit<T(!new)>(s: seq<T>, p: T -> bool)
    requires s != []
    ensures AnyOf(s, p) <==> AnyOf(s[..|s| - 1], p) || p(s[|s| - 1])
  {
    var init := s[..|s| - 1];
    if AnyOf(s, p) {
      var i :| 0 <= i < |s| && p(s[i]);
      assert i < |init| ==> p(init[i]);
    }
  }

  ghost predicate SomeAttachmentAllows(atts: seq<Attachment>, projectID: string, lib: Library,
                                       q: Query, parents: Parents, eval: Conditions)
  {
    AnyOf(atts, att => AttachmentAllows(att, projectID, lib, q, parents, eval))
  }

  lemma {:induction false} ResolvedMeaning(atts: seq<Attachment>, projectID: string, lib: Library,
                                           q: Query, parents: Parents, eval: Conditions)
    ensures Allows(ResolvedPermits(atts, projectID, lib), q, parents, eval)
       <==> SomeAttachmentAllows(atts, projectID, lib, q, parents, eval)
  {
    if atts != [] {
      var k := |atts| - 1;
      ResolvedMeaning(atts[..k], projectID, lib, q, parents, eval);
      AllowsConcat(ResolvedPermits(atts[..k], projectID, lib), AttachmentPermits(atts[k], projectID, lib), q, parents,
                   eval);
      AttachmentMeaning(atts[k], projectID, lib, q, parents, eval);
      AnyOfSplit(atts, att => AttachmentAllows(att, projectID, lib, q, parents, eval));
    }
  }

  /** With permit-only global policies the decision is the union of the global permits and of
      what each attachment grants. */
  lemma DecisionIsUnion(globals: seq<Permit>, atts: seq<Attachment>, projectID: string, lib: Library,
                        q: Query, parents: Parents, eval: Conditions)
    ensures Allows(globals + ResolvedPermits(atts, projectID, lib), q, parents, eval) <==>
              || Allows(globals, q, parents, eval)
              || SomeAttachmentAllows(atts, projectID, lib, q, parents, eval)
  {
    AllowsConcat(globals, ResolvedPermits(atts, projectID, lib), q, parents, eval);
    ResolvedMeaning(atts, projectID, lib, q, parents, eval);
  }

  /** In every reachable state of the store, for every project that is idle and that no
      create left half done: if the project's attachments allow a user anything, the resource
      is the project or a cluster of the request to it, the user is the principal of one of
      its attachments, and the project is in the user's list. */
  lemma AccessImpliesIndexed(run: seq<Index.Action>, projectID: string, lib: Library,
                             userID: string, action: string, resource: Entity, eval: Conditions)
    requires Index.ValidRun(Index.EMPTY, run) && ApiResource(resource)
    requires var s := Index.Run(Index.EMPTY, run); projectID !in s.ops && projectID !in s.tornCreates
    requires Allows(ResolvedPermits(At(Index.Run(Index.EMPTY, run).attachments, projectID), projectID, lib),
                    Query(UserEntity(userID), action, resource), RequestEntities(userID, projectID, resource), eval)
    ensures var s := Index.Run(Index.EMPTY, run);
            && (resource == ProjectEntity(projectID) || resource == ClusterEntity(resource.id))
            && HasPrincipal(At(s.attachments, projectID), userID)
            && projectID in At(s.index, userID)
  {
    var s := Index.Run(Index.EMPTY, run);
    var atts := At(s.attachments, projectID);
    var q := Query(UserEntity(userID), action, resource);
    var parents := RequestEntities(userID, projectID, resource);
    ResolvedMeaning(atts, projectID, lib, q, parents, eval);
    var i :| 0 <= i < |atts| && AttachmentAllows(atts[i], projectID, lib, q, parents, eval);
    InProject(userID, projectID, resource, projectID);
    assert atts[i].principal == userID;
    Index.TornOperationsErrOneWay(run, projectID);
  }
}
