/**
  The attachment store and its reverse index (internal/cedar/store.go): a list of
  attachments per project, a list of projects per user, and the operations that read,
  filter and rewrite them.
 */
module Attachments {
  import opened Wrappers

  datatype Attachment = Attachment(id: string, templateName: string, principal: string)

  type Lists<T> = map<string, seq<T>>

  /** An absent document reads as an empty list. */
  function At<T>(m: Lists<T>, k: string): seq<T> { if k in m then m[k] else [] }

  function Without(atts: seq<Attachment>, id: string): seq<Attachment> {
    if atts == [] then []
    else
      var last := atts[|atts| - 1];
      Without(atts[..|atts| - 1], id) + if last.id == id then [] else [last]
  }

  /** The principal of the last attachment with this id. */
  function PrincipalOf(atts: seq<Attachment>, id: string): Option<string> {
    if atts == [] then None
    else if atts[|atts| - 1].id == id then Some(atts[|atts| - 1].principal)
    else PrincipalOf(atts[..|atts| - 1], id)
  }

  ghost predicate HasPrincipal(atts: seq<Attachment>, user: string) {
    exists i :: 0 <= i < |atts| && atts[i].principal == user
  }

  function Minus(projects: seq<string>, p: string): seq<string> {
    if projects == [] then []
    else
      var last := projects[|projects| - 1];
      Minus(projects[..|projects| - 1], p) + if last == p then [] else [last]
  }

  function AddProject(index: Lists<string>, user: string, p: string): Lists<string> {
    if p in At(index, user) then index else index[user := At(index, user) + [p]]
  }

  /** A list that becomes empty is deleted with its document. */
  function RemoveProject(index: Lists<string>, user: string, p: string): Lists<string> {
    if user !in index then index
    else if Minus(index[user], p) == [] then index - {user}
    else index[user := Minus(index[user], p)]
  }

  lemma {:induction false} WithoutMembers(atts: seq<Attachment>, id: string, a: Attachment)
    ensures a in Without(atts, id) <==> a in atts && a.id != id
  {
    if atts != [] {
      WithoutMembers(atts[..|atts| - 1], id, a);
      assert a in atts <==> a in atts[..|atts| - 1] || a == atts[|atts| - 1];
    }
  }

  lemma {:induction false} WithoutAppend(a: seq<Attachment>, b: seq<Attachment>, id: string)
    ensures Without(a + b, id) == Without(a, id) + Without(b, id)
  {
    if b == [] {
      assert a + b == a;
    } else {
      var k := |b| - 1;
      WithoutAppend(a, b[..k], id);
      assert (a + b)[..|a + b| - 1] == a + b[..k];
    }
  }

  lemma {:induction false} PrincipalFound(atts: seq<Attachment>, id: string)
    ensures PrincipalOf(atts, id).None? <==> forall a :: a in atts ==> a.id != id
    ensures PrincipalOf(atts, id).Some? ==>
              exists a :: a in atts && a.id == id && a.principal == PrincipalOf(atts, id).value
  {
    if atts != [] {
      var init, last := atts[..|atts| - 1], atts[|atts| - 1];
      PrincipalFound(init, id);
      assert forall a :: a in atts <==> a in init || a == last;
      if last.id == id {
        assert last in atts;
      }
    }
  }

  ghost predicate NoRepeats<T(!new)>(s: seq<T>) {
    forall i, j :: 0 <= i < j < |s| ==> s[i] != s[j]
  }

  lemma {:induction false} MinusMembers(projects: seq<string>, p: string, x: string)
    ensures x in Minus(projects, p) <==> x in projects && x != p
  {
    if projects != [] {
      MinusMembers(projects[..|projects| - 1], p, x);
      assert x in projects <==> x in projects[..|projects| - 1] || x == projects[|projects| - 1];
    }
  }

  lemma {:induction false} MinusNoRepeats(projects: seq<string>, p: string)
    requires NoRepeats(projects)
    ensures NoRepeats(Minus(projects, p))
  {
    if projects != [] {
      var init, last := projects[..|projects| - 1], projects[|projects| - 1];
      MinusNoRepeats(init, p);
      MinusMembers(init, p, last);
      assert last !in init;
    }
  }

  /** What the two index transactions mean: they change the membership of one project in one
      user's list, and keep every list non-empty and free of repeats. */
  ghost predicate WellKept(index: Lists<string>) {
    forall u :: u in index ==> index[u] != [] && NoRepeats(index[u])
  }

  lemma AddProjectMeaning(index: Lists<string>, user: string, p: string)
    requires WellKept(index)
    ensures WellKept(AddProject(index, user, p))
    ensures forall u, x :: x in At(AddProject(index, user, p), u) <==> x in At(index, u) || (u == user && x == p)
    ensures p !in At(index, user) ==> At(AddProject(index, user, p), user) == At(index, user) + [p]
  {
  }

  lemma RemoveProjectMeaning(index: Lists<string>, user: string, p: string)
    requires WellKept(index)
    ensures WellKept(RemoveProject(index, user, p))
    ensures forall u, x :: x in At(RemoveProject(index, user, p), u) <==> x in At(index, u) && !(u == user && x == p)
  {
    if user in index {
      MinusNoRepeats(index[user], p);
      forall x
        ensures x in Minus(index[user], p) <==> x in index[user] && x != p
      {
        MinusMembers(index[user], p, x);
      }
    }
  }

  // The store.

  datatype StoreError = TemplateNotFound | AttachmentNotFound

  class Store {
    var attachments: Lists<Attachment>
    var userProjects: Lists<string>

    constructor ()
      ensures attachments == map[] && userProjects == map[]
    {
      attachments := map[];
      userProjects := map[];
    }

    method AddUserProject(user: string, p: string)
      modifies this`userProjects
      ensures userProjects == AddProject(old(userProjects), user, p)
    {
      if user !in userProjects {
        assert At(userProjects, user) + [p] == [p];
        userProjects := userProjects[user := [p]];
        return;
      }
      var projects := userProjects[user];
      for i := 0 to |projects|
        invariant p !in projects[..i]
      {
        if projects[i] == p {
          return;
        }
      }
      userProjects := userProjects[user := projects + [p]];
    }

    method RemoveUserProject(user: string, p: string)
      modifies this`userProjects
      ensures userProjects == RemoveProject(old(userProjects), user, p)
    {
      if user !in userProjects {
        return;
      }
      var projects := userProjects[user];
      var filtered := [];
      for i := 0 to |projects|
        invariant filtered == Minus(projects[..i], p)
      {
        assert projects[..i + 1][..i] == projects[..i];
        if projects[i] != p {
          filtered := filtered + [projects[i]];
        }
      }
      assert projects[..|projects|] == projects;
      if |filtered| == 0 {
        userProjects := userProjects - {user};
      } else {
        userProjects := userProjects[user := filtered];
      }
    }

    /** `known` says whether the template or custom role passed validation; `id` is the
        freshly generated attachment id. */
    method CreateAttachment(project: string, templateName: string, user: string, known: bool, id: string)
      returns (r: Result<Attachment, StoreError>)
      modifies this
      ensures var a := Attachment(id, templateName, user);
              if known then
                && r == Success(a)
                && attachments == old(attachments)[project := At(old(attachments), project) + [a]]
                && userProjects == AddProject(old(userProjects), user, project)
              else
                && r == Failure(TemplateNotFound)
                && attachments == old(attachments) && userProjects == old(userProjects)
    {
      if !known {
        return Failure(TemplateNotFound);
      }
      var a := Attachment(id, templateName, user);
      attachments := attachments[project := At(attachments, project) + [a]];
      AddUserProject(user, project);
      r := Success(a);
    }

    method DeleteAttachment(project: string, id: string) returns (r: Result<(), StoreError>)
      modifies this
      ensures match PrincipalOf(At(old(attachments), project), id)
              case None =>
                && r == Failure(AttachmentNotFound)
                && attachments == old(attachments) && userProjects == old(userProjects)
              case Some(user) =>
                var rest := Without(At(old(attachments), project), id);
                && r == Success(())
                && attachments == old(attachments)[project := rest]
                && userProjects == if HasPrincipal(rest, user) || user == "" then old(userProjects)
                                   else RemoveProject(old(userProjects), user, project)
    {
      var atts := At(attachments, project);
      var deletedUser := "";
      var filtered := [];
      var found := false;
      for i := 0 to |atts|
        invariant filtered == Without(atts[..i], id)
        invariant found <==> PrincipalOf(atts[..i], id).Some?
        invariant found ==> PrincipalOf(atts[..i], id) == Some(deletedUser)
      {
        assert atts[..i + 1][..i] == atts[..i];
        if atts[i].id == id {
          found := true;
          deletedUser := atts[i].principal;
        } else {
          filtered := filtered + [atts[i]];
        }
      }
      assert atts[..|atts|] == atts;
      if !found {
        return Failure(AttachmentNotFound);
      }
      attachments := attachments[project := filtered];
      var hasRemaining := false;
      for i := 0 to |filtered|
        invariant hasRemaining <==> HasPrincipal(filtered[..i], deletedUser)
      {
        assert filtered[..i + 1] == filtered[..i] + [filtered[i]];
        if filtered[i].principal == deletedUser {
          hasRemaining := true;
          assert filtered[..i + 1][i].principal == deletedUser;
          break;
        }
      }
      if hasRemaining {
        assert HasPrincipal(filtered, deletedUser);
      } else {
        assert filtered[..|filtered|] == filtered;
      }
      if !hasRemaining && deletedUser != "" {
        RemoveUserProject(deletedUser, project);
      }
      r := Success(());
    }
  }
}
