/**
  The fragment of Cedar the store produces (internal/cedar/store.go, writePermitBlock, and
  the embedded templates), what it means, and the entities of a request
  (internal/cedar/entities.go).
 */
module Policies {

  datatype Entity = Entity(kind: string, id: string)

  function UserEntity(id: string): Entity { Entity("HCP::User", id) }

  function ProjectEntity(id: string): Entity { Entity("HCP::Project", id) }

  function ClusterEntity(id: string): Entity { Entity("HCP::ManagedHostedCluster", id) }

  /** A template may leave the action open; everything else lists actions. */
  datatype Actions = AnyAction | OneOf(actions: seq<string>)

  /** permit (principal == p, action in [..], resource in r) when { c1 } when { c2 } ... */
  datatype Permit = Permit(principal: Entity, actions: Actions, resource: Entity, conditions: seq<string>)

  datatype Query = Query(principal: Entity, action: string, resource: Entity)

  datatype Truth = True | False | Erroneous

  /** The parents of every entity known for a request. */
  type Parents = map<Entity, set<Entity>>

  /** The evaluator of condition texts. */
  type Conditions = (string, Query) -> Truth

  // `in`, reflexively and transitively.

  ghost predicate Climbs(path: seq<Entity>, i: nat, parents: Parents) {
    i + 1 < |path| ==> path[i] in parents && path[i + 1] in parents[path[i]]
  }

  ghost predicate Chain(path: seq<Entity>, parents: Parents) {
    path != [] && forall i: nat :: Climbs(path, i, parents)
  }

  ghost predicate In(e: Entity, ancestor: Entity, parents: Parents) {
    exists path :: Chain(path, parents) && path[0] == e && path[|path| - 1] == ancestor
  }

  ghost predicate Satisfied(p: Permit, q: Query, parents: Parents, eval: Conditions) {
    && q.principal == p.principal
    && (p.actions.OneOf? ==> q.action in p.actions.actions)
    && In(q.resource, p.resource, parents)
    && forall c :: c in p.conditions ==> eval(c, q) == True
  }

  /** Permits only: a query is allowed if some permit is satisfied, else denied. */
  ghost predicate Allows(ps: seq<Permit>, q: Query, parents: Parents, eval: Conditions) {
    exists i :: 0 <= i < |ps| && Satisfied(ps[i], q, parents, eval)
  }

  lemma AllowsConcat(ps1: seq<Permit>, ps2: seq<Permit>, q: Query, parents: Parents, eval: Conditions)
    ensures Allows(ps1 + ps2, q, parents, eval) <==> Allows(ps1, q, parents, eval) || Allows(ps2, q, parents, eval)
  {
    var ps := ps1 + ps2;
    if Allows(ps1, q, parents, eval) {
      var i :| 0 <= i < |ps1| && Satisfied(ps1[i], q, parents, eval);
      assert ps[i] == ps1[i];
    }
    if Allows(ps2, q, parents, eval) {
      var i :| 0 <= i < |ps2| && Satisfied(ps2[i], q, parents, eval);
      assert ps[|ps1| + i] == ps2[i];
    }
  }

  // Entities of one request.

  /** The parents BuildEntityMap records: the user and, for a cluster resource, the cluster
      sit in the project; the project sits in nothing. */
  function RequestEntities(userID: string, projectID: string, resource: Entity): Parents {
    var p := ProjectEntity(projectID);
    var base := map[p := {}, UserEntity(userID) := {p}];
    if resource == ClusterEntity(resource.id) then base[resource := {p}] else base
  }

  /** The resources of the requests the API maps. */
  predicate ApiResource(resource: Entity) {
    resource == ClusterEntity(resource.id) || resource == ProjectEntity(resource.id)
  }

  /** A resource is in a project exactly when it is the request's project itself or a
      cluster of a request to that project. */
  lemma InProject(userID: string, projectID: string, resource: Entity, other: string)
    requires ApiResource(resource)
    ensures In(resource, ProjectEntity(other), RequestEntities(userID, projectID, resource)) <==>
              if resource == ClusterEntity(resource.id) then other == projectID else resource == ProjectEntity(other)
  {
    var parents := RequestEntities(userID, projectID, resource);
    var top := ProjectEntity(projectID);
    var goal := ProjectEntity(other);
    if In(resource, goal, parents) {
      var path :| Chain(path, parents) && path[0] == resource && path[|path| - 1] == goal;
      if |path| > 1 {
        assert Climbs(path, 0, parents) && Climbs(path, 1, parents);
        assert path[1] == top && parents[top] == {};
      }
    }
    if resource == goal {
      assert Chain([resource], parents);
      assert In(resource, goal, parents) by {
        assert [resource][0] == resource && [resource][|[resource]| - 1] == goal;
      }
    } else if resource == ClusterEntity(resource.id) && goal == top {
      var path := [resource, top];
      assert Chain(path, parents) && path[0] == resource && path[|path| - 1] == goal;
    }
  }

  // Policy text.

  function EntityText(e: Entity): string { e.kind + "::\"" + e.id + "\"" }

  function ActionText(action: string): string { "HCP::Action::\"" + action + "\"" }

  /** strings.Join */
  function Join(parts: seq<string>, sep: string): string {
    if parts == [] then "" else if |parts| == 1 then parts[0]
    else Join(parts[..|parts| - 1], sep) + sep + parts[|parts| - 1]
  }

  function WhenText(conditions: seq<string>): string {
    if conditions == [] then ""
    else WhenText(conditions[..|conditions| - 1]) + "\nwhen { " + conditions[|conditions| - 1] + " }"
  }

  function ActionTexts(actions: seq<string>): seq<string> {
    seq(|actions|, i requires 0 <= i < |actions| => ActionText(actions[i]))
  }

  /** The text of one permit block, laid out as the store writes it. */
  function PermitText(p: Permit): string {
    "permit (\n    principal == " + EntityText(p.principal)
    + ",\n    action"
    + (match p.actions case AnyAction => "" case OneOf(a) => " in [" + Join(ActionTexts(a), ", ") + "]")
    + ",\n    resource in " + EntityText(p.resource) + "\n)"
    + WhenText(p.conditions) + ";\n"
  }

  function PermitsText(ps: seq<Permit>): string {
    if ps == [] then "" else PermitsText(ps[..|ps| - 1]) + PermitText(ps[|ps| - 1])
  }
}
