/**
  Content addressing (internal/apiserver/handlers.go, internal/desires/desireid.go): a
  stored desire names the management cluster it is stored for, its id is computed from its
  own target, and an applied object carries the target's namespace and name.
 */
module Addressing {
  import opened Wrappers
  import opened DesireId
  import opened Desires
  import opened Protocol

  function TargetID(t: ResourceReference): DocumentID {
    NewDocumentID(TASK_KEY, t.group, t.version, t.resource, t.namespace, t.name)
  }

  predicate IsCluster(t: ResourceReference) { t == ClusterTarget(t.namespace, t.name) }

  predicate IsNamespace(t: ResourceReference) { t == NamespaceTarget(t.name) }

  function TargetOf(m: Manifest): ResourceReference {
    match m
    case Cluster(ns, name, _, _) => ClusterTarget(ns, name)
    case Namespace(name) => NamespaceTarget(name)
  }

  predicate Addressed(loc: Loc, mc: MC, t: ResourceReference) {
    mc == loc.mc && loc.id == TargetID(t)
  }

  ghost predicate AppliesAddressed(t: Table<ApplyDesire>) {
    forall loc :: loc in t.docs ==>
      var d := t.docs[loc].value;
      Addressed(loc, d.managementCluster, d.target) && (IsCluster(d.target) || IsNamespace(d.target))
  }

  ghost predicate TargetsAddressed(t: Table<TargetDesire>) {
    forall loc :: loc in t.docs ==>
      var d := t.docs[loc].value;
      Addressed(loc, d.managementCluster, d.target) && IsCluster(d.target)
  }

  ghost predicate WorldAddressed(w: World) {
    AppliesAddressed(w.applyDesires) && TargetsAddressed(w.readDesires) && TargetsAddressed(w.deleteDesires)
  }

  /** An update holds on to a desire it read at its own document. */
  predicate ProcAddressed(p: Proc) {
    match p.pc
    case Replacing(mc, existing) =>
      Addressed(p.request.At(mc), existing.value.managementCluster, existing.value.target)
          && IsCluster(existing.value.target)
    case _ => true
  }

  ghost predicate SystemAddressed(s: System) {
    WorldAddressed(s.world) && forall r :: r in s.procs ==> ProcAddressed(s.procs[r])
  }

  /** A document under a cluster id is a cluster's, never a namespace's. */
  lemma ClusterIdHoldsCluster(loc: Loc, mc: MC, t: ResourceReference, namespace: string, name: string)
    requires Addressed(loc, mc, t) && (IsCluster(t) || IsNamespace(t))
    requires loc.id == ClusterDocumentID(namespace, name)
    ensures IsCluster(t) && !IsNamespace(t)
  {
    if IsNamespace(t) {
      NamespaceAndClusterIdsDiffer(t.name, namespace, name);
    }
  }

  /** What an effect inserts is addressed. */
  predicate EffectAddressed(e: Effect) {
    match e
    case InsertApply(loc, d) =>
      Addressed(loc, d.managementCluster, d.target) && (IsCluster(d.target) || IsNamespace(d.target))
    case ReplaceApply(loc, _, d) =>
      Addressed(loc, d.managementCluster, d.target) && IsCluster(d.target)
    case InsertRead(loc, d) => Addressed(loc, d.managementCluster, d.target) && IsCluster(d.target)
    case InsertDelete(loc, d) => Addressed(loc, d.managementCluster, d.target) && IsCluster(d.target)
    case _ => true
  }

  lemma EffectKeepsAddressing(w: World, e: Effect)
    requires WorldAddressed(w) && Applicable(w, e) && EffectAddressed(e)
    ensures WorldAddressed(Apply(w, e))
  {
  }

  lemma AnswerIsAddressed(w: World, q: Request, pc: Pc, i: Input)
    requires !pc.Finished? && forall mc :: mc in i.listing ==> mc in w.quotas
    requires AppliesAddressed(w.applyDesires) && ProcAddressed(Proc(q, pc))
    ensures EffectAddressed(Answer(w, q, pc, i).0)
    ensures ProcAddressed(Proc(q, Answer(w, q, pc, i).1))
  {
    if pc.UpdateRead? && q.At(pc.mc) in w.applyDesires.docs {
      var d := w.applyDesires.docs[q.At(pc.mc)].value;
      ClusterIdHoldsCluster(q.At(pc.mc), d.managementCluster, d.target, q.namespace, q.name);
    }
  }

  lemma StepKeepsAddressing(s: System, a: Action)
    requires SystemAddressed(s) && Enabled(s, a)
    ensures SystemAddressed(After(s, a))
  {
    if a.Advance? {
      AnswerIsAddressed(s.world, s.procs[a.r].request, s.procs[a.r].pc, a.input);
    }
    EffectKeepsAddressing(s.world, Move(s, a).0);
  }

  /** In every reachable state every desire is stored where its own contents say, whatever
      the requests, their interleaving and the faults. */
  lemma {:induction false} RunKeepsAddressing(s: System, run: seq<Action>)
    requires SystemAddressed(s) && ValidRun(s, run)
    ensures SystemAddressed(Run(s, run))
    decreases |run|
  {
    if run != [] {
      StepKeepsAddressing(s, run[0]);
      RunKeepsAddressing(After(s, run[0]), run[1..]);
    }
  }

  // The applied object itself. Here a slash in a namespace could confuse two clusters.

  predicate Named(d: ApplyDesire) {
    d.content.Some? && d.target == TargetOf(d.content.value) && '/' !in d.target.namespace
  }

  ghost predicate AppliesNamed(t: Table<ApplyDesire>) {
    forall loc :: loc in t.docs ==> Named(t.docs[loc].value)
  }

  predicate ProcNamed(p: Proc) {
    '/' !in p.request.namespace && (p.pc.Replacing? ==> Named(p.pc.existing.value))
  }

  ghost predicate SystemNamed(s: System) {
    AppliesNamed(s.world.applyDesires) && forall r :: r in s.procs ==> ProcNamed(s.procs[r])
  }

  ghost predicate SlashFree(run: seq<Action>) {
    forall i :: 0 <= i < |run| && run[i].Arrive? ==> '/' !in run[i].request.namespace
  }

  predicate EffectNamed(e: Effect) {
    match e
    case InsertApply(_, d) => Named(d)
    case ReplaceApply(_, _, d) => Named(d)
    case _ => true
  }

  lemma EffectKeepsNames(w: World, e: Effect)
    requires AppliesNamed(w.applyDesires) && Applicable(w, e) && EffectNamed(e)
    ensures AppliesNamed(Apply(w, e).applyDesires)
  {
  }

  lemma AnswerIsNamed(w: World, q: Request, pc: Pc, i: Input)
    requires !pc.Finished? && forall mc :: mc in i.listing ==> mc in w.quotas
    requires AppliesNamed(w.applyDesires) && ProcAddressed(Proc(q, pc)) && ProcNamed(Proc(q, pc))
    ensures EffectNamed(Answer(w, q, pc, i).0)
    ensures ProcNamed(Proc(q, Answer(w, q, pc, i).1))
  {
    if pc.Replacing? {
      var t := pc.existing.value.target;
      ClusterIdInjective(q.namespace, q.name, t.namespace, t.name);
    }
  }

  lemma StepKeepsNames(s: System, a: Action)
    requires SystemAddressed(s) && SystemNamed(s) && Enabled(s, a)
    requires a.Arrive? ==> '/' !in a.request.namespace
    ensures SystemNamed(After(s, a))
  {
    if a.Advance? {
      AnswerIsNamed(s.world, s.procs[a.r].request, s.procs[a.r].pc, a.input);
    }
    EffectKeepsNames(s.world, Move(s, a).0);
  }

  /** With slash-free namespaces every ApplyDesire's object has its target's namespace and
      name in every reachable state: an Update never installs another cluster's object. */
  lemma {:induction false} RunKeepsNames(s: System, run: seq<Action>)
    requires SystemAddressed(s) && SystemNamed(s) && ValidRun(s, run) && SlashFree(run)
    ensures SystemNamed(Run(s, run))
    decreases |run|
  {
    if run != [] {
      StepKeepsAddressing(s, run[0]);
      StepKeepsNames(s, run[0]);
      RunKeepsNames(After(s, run[0]), run[1..]);
    }
  }
}
