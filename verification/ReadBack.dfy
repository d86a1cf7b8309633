/**
  The policy text a project resolves to, read back (internal/cedar/store.go): it stands for the
  global permits followed by each attachment's, in order.
 */
module ReadBack {
  import opened Wrappers
  import opened Policies
  import opened Roles
  import opened Templates
  import opened Attachments
  import opened Reader
  import opened Access

  lemma Flatten(a: string, b: string, c: string, d: string, e: string, f: string, g: string, h: string, i: string)
    ensures a + b + c + d + e + f + g + h + i == a + (b + (c + (d + (e + (f + (g + (h + i)))))))
  {
  }

  const ONE_LINE := Gaps("", " ", "")

  const INDENTED := Gaps("\n        ", "\n        ", "\n    ")

  lemma PermitTextLaidOut(p: Permit)
    ensures PermitText(p) == LaidOut(p, ONE_LINE, "\n")
  {
    assert "," + " " == ", " && ";" + "\n" == ";\n";
    var list := match p.actions case AnyAction => "" case OneOf(a) => " in [" + Join(ActionTexts(a), ", ") + "]";
    assert list == ListText(p.actions, ONE_LINE) by {
      if p.actions.OneOf? {
        ListFlat(Join(ActionTexts(p.actions.actions), ", "));
      }
    }
    Flatten("permit (\n    principal == ", EntityText(p.principal), ",\n    action", list, ",\n    resource in ",
            EntityText(p.resource), "\n)", WhenText(p.conditions), ";\n");
  }

  lemma ListFlat(joined: string)
    ensures " in [" + joined + "]" == " in [" + ("" + (joined + ("" + "]")))
  {
  }

  lemma OneItem<T(!new)>(read: string -> Option<(T, string)>, s: string, x: T)
    requires 1 < |s| && !White(s[0]) && read(s) == Some((x, "\n"))
    ensures ReadAll(read, s) == Some([x])
  {
    assert "\n"[1..] == "";
    assert Skip(s) == s && Skip("\n") == "";
    assert ReadAll(read, "\n") == Some([]);
    assert [x] + [] == [x];
  }

  lemma LaidOutIsReadAlone(p: Permit, g: Gaps)
    requires Readable(p) && BlankGaps(g)
    ensures ReadPolicies(LaidOut(p, g, "\n")) == Some([p])
  {
    var text := LaidOut(p, g, "\n");
    LaidOutIsRead(p, g, "\n");
    assert text[0] == 'p';
    OneItem(ReadPermit, text, p);
  }

  lemma PermitIsReadBack(p: Permit)
    requires Readable(p)
    ensures ReadPolicies(PermitText(p)) == Some([p])
  {
    PermitTextLaidOut(p);
    LaidOutIsReadAlone(p, ONE_LINE);
  }

  function Printed<T>(text: T -> string, xs: seq<T>): string {
    if xs == [] then "" else Printed(text, xs[..|xs| - 1]) + text(xs[|xs| - 1])
  }

  lemma {:induction false} PrintedIsReadBack<T(!new)>(read: string -> Option<(T, string)>, text: T -> string,
                                                     xs: seq<T>)
    requires Steady(read) && forall x :: x in xs ==> ReadAll(read, text(x)) == Some([x])
    ensures ReadAll(read, Printed(text, xs)) == Some(xs)
  {
    if xs != [] {
      var init, last := xs[..|xs| - 1], xs[|xs| - 1];
      PrintedIsReadBack(read, text, init);
      ReadAllAppends(read, Printed(text, init), text(last));
      assert xs == init + [last];
    }
  }

  lemma {:induction false} PermitsTextIsPrinted(ps: seq<Permit>)
    ensures PermitsText(ps) == Printed(PermitText, ps)
  {
    if ps != [] {
      PermitsTextIsPrinted(ps[..|ps| - 1]);
    }
  }

  /** The store's own blocks are read back as they were meant. */
  lemma PermitsAreReadBack(ps: seq<Permit>)
    requires forall p :: p in ps ==> Readable(p)
    ensures ReadPolicies(PermitsText(ps)) == Some(ps)
  {
    PermitIsSteady();
    forall p | p in ps
      ensures ReadAll(ReadPermit, PermitText(p)) == Some([p])
    {
      PermitIsReadBack(p);
    }
    PermitsTextIsPrinted(ps);
    PrintedIsReadBack(ReadPermit, PermitText, ps);
  }

  /** The templates write the same permit with their own white space. */
  lemma TemplateLaidOut(principal: Entity, actions: Actions, resource: Entity)
    ensures TemplateLayout(EntityText(principal), actions, EntityText(resource))
         == LaidOut(Permit(principal, actions, resource, []), INDENTED, "\n")
  {
    var rest := EntityText(resource) + AFTER_RESOURCE;
    assert AFTER_RESOURCE == "\n)" + ("" + (";" + "\n"));
    match actions
    case AnyAction => AnyMiddle(rest);
    case OneOf(names) =>
      assert "," + "\n        " == ",\n        ";
      ListMiddle(Join(ActionTexts(names), ",\n        "), rest);
  }

  lemma AnyMiddle(rest: string)
    ensures ",\n    " + "action" + ",\n    resource in " + rest
         == ",\n    action" + ("" + (",\n    resource in " + rest))
  {
  }

  lemma ListMiddle(joined: string, rest: string)
    ensures ",\n    " + ("action in [\n        " + joined + "\n    ]") + ",\n    resource in " + rest
         == ",\n    action" + ((" in [" + ("\n        " + (joined + ("\n    " + "]"))))
                               + (",\n    resource in " + rest))
  {
  }

  lemma TemplateIsReadBack(principal: Entity, actions: Actions, resource: Entity)
    requires Readable(Permit(principal, actions, resource, []))
    ensures ReadPolicies(TemplateLayout(EntityText(principal), actions, EntityText(resource)))
         == Some([Permit(principal, actions, resource, [])])
  {
    TemplateLaidOut(principal, actions, resource);
    LaidOutIsReadAlone(Permit(principal, actions, resource, []), INDENTED);
  }

  // One attachment.

  /** Texts the printed policies can hold as they are: ids without quotes, escapes and question
      marks, conditions without closing braces. */
  predicate PlainId(id: string) { Plain(id) && '?' !in id }

  ghost predicate PlainLibrary(lib: Library) {
    && (forall name :: name in lib.templates && lib.templates[name].OneOf? ==>
          forall a :: a in lib.templates[name].actions ==> PlainId(a))
    && (forall id :: id in lib.roles ==> Braceless(lib.roles[id].conditions))
  }

  ghost predicate PlainAttachments(atts: seq<Attachment>) {
    forall att :: att in atts ==> PlainId(att.principal)
  }

  lemma CollectionActionIsPlain(action: string)
    requires action == "ListManagedHostedClusters" || action == "CreateManagedHostedCluster"
    ensures Plain(action)
  {
  }

  lemma ResourceActionIsPlain(action: string)
    requires action == "GetManagedHostedCluster" || action == "UpdateManagedHostedCluster"
    ensures Plain(action)
  {
  }

  lemma OtherActionIsPlain(action: string)
    requires action == "DeleteManagedHostedCluster" || action == "GetKubeConfig" || action == "ManagePolicies"
    ensures Plain(action)
  {
  }

  lemma ActionNameIsPlain(p: string)
    requires p in PERMISSION_TO_ACTION
    ensures Plain(PERMISSION_TO_ACTION[p])
  {
    var action := PERMISSION_TO_ACTION[p];
    var q := Query(Entity("", ""), action, Entity("", ""));
    GrantsLiterally(p, [], q, (_, _) => True);
    if p == "cluster.list" || p == "cluster.create" {
      CollectionActionIsPlain(action);
    } else if p == "cluster.get" || p == "cluster.update" {
      ResourceActionIsPlain(action);
    } else {
      OtherActionIsPlain(action);
    }
  }

  lemma BlockIsReadable(permissions: seq<string>, conditions: seq<string>, userID: string, projectID: string)
    requires Plain(userID) && Plain(projectID) && Braceless(conditions)
    ensures Readable(Block(permissions, conditions, userID, projectID))
  {
    forall a | a in ActionsOf(permissions)
      ensures Plain(a)
    {
      ActionsOfMembers(permissions, a);
      var p :| p in permissions && p in PERMISSION_TO_ACTION && PERMISSION_TO_ACTION[p] == a;
      ActionNameIsPlain(p);
    }
  }

  lemma RoleIsReadBack(role: CustomRole, userID: string, projectID: string)
    requires Plain(userID) && Plain(projectID) && Braceless(role.conditions)
    ensures var ps := Compile(role.permissions, role.conditions, userID, projectID);
            ReadPolicies(PermitsText(ps)) == Some(ps)
  {
    BlockIsReadable(Filtered(role.permissions, true), [], userID, projectID);
    BlockIsReadable(Filtered(role.permissions, false), role.conditions, userID, projectID);
    PermitsAreReadBack(Compile(role.permissions, role.conditions, userID, projectID));
  }

  /** `text` is the text of these permits; no text is the text of none. */
  ghost predicate Stands<T(!new)>(read: string -> Option<(T, string)>, text: Option<string>, xs: seq<T>) {
    match text
    case Some(t) => ReadAll(read, t) == Some(xs)
    case None => xs == []
  }

  lemma TemplateStands(actions: Actions, userID: string, projectID: string)
    requires PlainId(userID) && PlainId(projectID)
    requires actions.OneOf? ==> forall a :: a in actions.actions ==> PlainId(a)
    ensures Stands(ReadPermit, Some(Instantiate(TemplateText(actions), userID, projectID)),
                   [Permit(UserEntity(userID), actions, ProjectEntity(projectID), [])])
  {
    assert PlainActions(actions) by {
      if actions.OneOf? {
        assert forall i :: 0 <= i < |actions.actions| ==> actions.actions[i] in actions.actions;
      }
    }
    InstantiateFillsTheLayout(actions, userID, projectID);
    TemplateIsReadBack(UserEntity(userID), actions, ProjectEntity(projectID));
  }

  lemma AttachmentStands(att: Attachment, projectID: string, lib: Library)
    requires PlainLibrary(lib) && PlainId(att.principal) && PlainId(projectID)
    ensures Stands(ReadPermit, AttachmentText(att, projectID, lib), AttachmentPermits(att, projectID, lib))
  {
    if att.templateName in lib.templates {
      TemplateStands(lib.templates[att.templateName], att.principal, projectID);
    } else if RoleDocID(projectID, att.templateName) in lib.roles {
      RoleIsReadBack(lib.roles[RoleDocID(projectID, att.templateName)], att.principal, projectID);
    }
  }

  // The whole text.

  function Flat<T>(xss: seq<seq<T>>): seq<T> {
    if xss == [] then [] else Flat(xss[..|xss| - 1]) + xss[|xss| - 1]
  }

  lemma LineIsRead<T(!new)>(read: string -> Option<(T, string)>, s: string)
    requires Steady(read) && ReadAll(read, s).Some?
    ensures ReadAll(read, s + "\n") == ReadAll(read, s)
  {
    assert "\n"[1..] == "" && Skip("\n") == "";
    ReadAllAppends(read, s, "\n");
    assert ReadAll(read, s).value + [] == ReadAll(read, s).value;
  }

  lemma {:induction false} LinesAreReadBack<T(!new)>(read: string -> Option<(T, string)>, texts: seq<Option<string>>,
                                                    xss: seq<seq<T>>)
    requires Steady(read) && |texts| == |xss| && forall i :: 0 <= i < |texts| ==> Stands(read, texts[i], xss[i])
    ensures ReadAll(read, AttachmentLines(texts)) == Some(Flat(xss))
  {
    if texts != [] {
      var k := |texts| - 1;
      LinesAreReadBack(read, texts[..k], xss[..k]);
      assert Stands(read, texts[k], xss[k]);
      if texts[k].Some? {
        LineIsRead(read, texts[k].value);
        ReadAllAppends(read, AttachmentLines(texts[..k]), texts[k].value + "\n");
      } else {
        assert Flat(xss[..k]) + [] == Flat(xss[..k]);
      }
    }
  }

  function AllPermits(atts: seq<Attachment>, projectID: string, lib: Library): seq<seq<Permit>> {
    seq(|atts|, i requires 0 <= i < |atts| => AttachmentPermits(atts[i], projectID, lib))
  }

  lemma {:induction false} ResolvedIsFlat(atts: seq<Attachment>, projectID: string, lib: Library)
    ensures ResolvedPermits(atts, projectID, lib) == Flat(AllPermits(atts, projectID, lib))
  {
    if atts != [] {
      ResolvedIsFlat(atts[..|atts| - 1], projectID, lib);
      assert AllPermits(atts, projectID, lib)[..|atts| - 1] == AllPermits(atts[..|atts| - 1], projectID, lib);
    }
  }

  lemma AttachmentsAreReadBack(atts: seq<Attachment>, projectID: string, lib: Library)
    requires PlainLibrary(lib) && PlainAttachments(atts) && PlainId(projectID)
    ensures ReadPolicies(AttachmentLines(AttachmentTexts(atts, projectID, lib)))
         == Some(ResolvedPermits(atts, projectID, lib))
  {
    var texts, xss := AttachmentTexts(atts, projectID, lib), AllPermits(atts, projectID, lib);
    forall i | 0 <= i < |atts|
      ensures Stands(ReadPermit, texts[i], xss[i])
    {
      AttachmentStands(atts[i], projectID, lib);
    }
    PermitIsSteady();
    LinesAreReadBack(ReadPermit, texts, xss);
    ResolvedIsFlat(atts, projectID, lib);
  }

  lemma GlobalsThenLines<T(!new)>(read: string -> Option<(T, string)>, globalPolicies: string, lines: string)
    requires Steady(read) && ReadAll(read, globalPolicies).Some? && ReadAll(read, lines).Some?
    ensures ReadAll(read, (if globalPolicies == "" then "" else globalPolicies + "\n") + lines)
         == Some(ReadAll(read, globalPolicies).value + ReadAll(read, lines).value)
  {
    LineIsRead(read, globalPolicies);
    ReadAllAppends(read, if globalPolicies == "" then "" else globalPolicies + "\n", lines);
  }

  /** The text resolved for a project is read back as the global permits followed by those of each
      attachment in order: text and permits say the same. */
  lemma ResolvedIsReadBack(globalPolicies: string, globals: seq<Permit>, atts: seq<Attachment>, projectID: string,
                           lib: Library)
    requires ReadPolicies(globalPolicies) == Some(globals)
    requires PlainLibrary(lib) && PlainAttachments(atts) && PlainId(projectID)
    ensures ReadPolicies(ResolvedText(globalPolicies, atts, projectID, lib))
         == Some(globals + ResolvedPermits(atts, projectID, lib))
  {
    AttachmentsAreReadBack(atts, projectID, lib);
    PermitIsSteady();
    GlobalsThenLines(ReadPermit, globalPolicies, AttachmentLines(AttachmentTexts(atts, projectID, lib)));
  }

  /** So deciding by the text is deciding by the global policies and the attachments. */
  lemma TextDecides(globalPolicies: string, globals: seq<Permit>, atts: seq<Attachment>, projectID: string,
                    lib: Library, q: Query, parents: Parents, eval: Conditions)
    requires ReadPolicies(globalPolicies) == Some(globals)
    requires PlainLibrary(lib) && PlainAttachments(atts) && PlainId(projectID)
    ensures var read := ReadPolicies(ResolvedText(globalPolicies, atts, projectID, lib));
            && read.Some?
            && (Allows(read.value, q, parents, eval) <==>
                  || Allows(globals, q, parents, eval)
                  || SomeAttachmentAllows(atts, projectID, lib, q, parents, eval))
  {
    ResolvedIsReadBack(globalPolicies, globals, atts, projectID, lib);
    DecisionIsUnion(globals, atts, projectID, lib, q, parents, eval);
  }

  /** The embedded templates meet what reading back asks of a library. */
  lemma EmbeddedTemplatesArePlain(name: string, action: string)
    requires name in TEMPLATES && TEMPLATES[name].OneOf? && action in TEMPLATES[name].actions
    ensures PlainId(action)
  {
    TemplatesArePlain();
    var i :| 0 <= i < |TEMPLATES[name].actions| && TEMPLATES[name].actions[i] == action;
    assert '?' !in action;
    TemplatesLiterally(name, action);
    if action == "ListManagedHostedClusters" || action == "CreateManagedHostedCluster" {
      CollectionActionIsPlain(action);
    } else if action == "GetManagedHostedCluster" || action == "UpdateManagedHostedCluster" {
      ResourceActionIsPlain(action);
    } else {
      OtherActionIsPlain(action);
    }
  }
}
