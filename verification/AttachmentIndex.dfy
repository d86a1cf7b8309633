/**
  The user-projects index over whole runs (internal/cedar/store.go). Creating or deleting
  an attachment is a read, a write of the attachment list and a separate write of the index.
  Operations on one project are serialised, operations on different projects interleave step
  by step, and any operation can fail at any step, before or after its write took effect.
 */
module AttachmentIndex {
  import opened Wrappers
  import opened Attachments

  datatype Op = Create(att: Attachment) | Delete(id: string)

  /** What the operation does next. */
  datatype Pc =
    | Reading
    | Saving(list: seq<Attachment>, user: string)
    | Indexing(user: string)
    | Unindexing(user: string)

  datatype Active = Active(op: Op, pc: Pc)

  /** `ops` holds the one operation in flight of each busy project. `tornCreates` and
      `tornDeletes` are ghost records of the projects where an operation stopped between
      its two writes. */
  datatype State = State(
    attachments: Lists<Attachment>,
    index: Lists<string>,
    ops: map<string, Active>,
    tornCreates: set<string>,
    tornDeletes: set<string>)

  datatype Outcome = Answered | Lost | Failed

  datatype Action = Begin(project: string, op: Op) | Step(project: string, outcome: Outcome)

  ghost predicate Enabled(s: State, a: Action) {
    match a
    case Begin(p, op) =>
      && p !in s.ops
      && (op.Create? ==> op.att.principal != "" && forall b :: b in At(s.attachments, p) ==> b.id != op.att.id)
    case Step(p, _) => p in s.ops
  }

  /** The step after the attachment list is saved, if any. */
  ghost function AfterSave(op: Op, list: seq<Attachment>, user: string): Option<Pc> {
    if op.Create? then Some(Indexing(user))
    else if HasPrincipal(list, user) || user == "" then None
    else Some(Unindexing(user))
  }

  function Finish(s: State, p: string): State { s.(ops := s.ops - {p}) }

  function Tear(s: State, p: string, pc: Pc): State {
    match pc
    case Indexing(_) => Finish(s, p).(tornCreates := s.tornCreates + {p})
    case Unindexing(_) => Finish(s, p).(tornDeletes := s.tornDeletes + {p})
    case _ => Finish(s, p)
  }

  function Read(s: State, p: string, op: Op): State {
    var atts := At(s.attachments, p);
    match op
    case Create(att) => s.(ops := s.ops[p := Active(op, Saving(atts + [att], att.principal))])
    case Delete(id) =>
      match PrincipalOf(atts, id)
      case None => Finish(s, p)
      case Some(user) => s.(ops := s.ops[p := Active(op, Saving(Without(atts, id), user))])
  }

  ghost function Save(s: State, p: string, op: Op, list: seq<Attachment>, user: string, lost: bool): State {
    var saved := s.(attachments := s.attachments[p := list]);
    match AfterSave(op, list, user)
    case None => Finish(saved, p)
    case Some(pc) => if lost then Tear(saved, p, pc) else saved.(ops := s.ops[p := Active(op, pc)])
  }

  ghost function Move(s: State, a: Action): State
    requires Enabled(s, a)
  {
    match a
    case Begin(p, op) => s.(ops := s.ops[p := Active(op, Reading)])
    case Step(p, outcome) =>
      var op, pc := s.ops[p].op, s.ops[p].pc;
      if outcome.Failed? then Tear(s, p, pc)
      else
        match pc
        case Reading => if outcome.Lost? then Finish(s, p) else Read(s, p, op)
        case Saving(list, user) => Save(s, p, op, list, user, outcome.Lost?)
        case Indexing(user) => Finish(s.(index := AddProject(s.index, user, p)), p)
        case Unindexing(user) => Finish(s.(index := RemoveProject(s.index, user, p)), p)
  }

  ghost predicate ValidRun(s: State, run: seq<Action>)
    decreases |run|
  {
    run == [] || (Enabled(s, run[0]) && ValidRun(Move(s, run[0]), run[1..]))
  }

  ghost function Run(s: State, run: seq<Action>): State
    requires ValidRun(s, run)
    decreases |run|
  {
    if run == [] then s else Run(Move(s, run[0]), run[1..])
  }

  // The invariant.

  ghost predicate UniqueIds(atts: seq<Attachment>) {
    forall a, b :: a in atts && b in atts && a.id == b.id ==> a == b
  }

  ghost predicate NoBlankPrincipal(atts: seq<Attachment>) {
    forall a :: a in atts ==> a.principal != ""
  }

  ghost predicate HasPc(s: State, p: string, pc: Pc) { p in s.ops && s.ops[p].pc == pc }

  /** Every principal of the project is indexed, or about to be. */
  ghost predicate Covered(s: State, p: string) {
    forall u :: HasPrincipal(At(s.attachments, p), u) ==> p in At(s.index, u) || HasPc(s, p, Indexing(u))
  }

  /** Every user indexed for the project is a principal of it, or about to be removed. */
  ghost predicate Backed(s: State, p: string) {
    forall u :: p in At(s.index, u) ==> HasPrincipal(At(s.attachments, p), u) || HasPc(s, p, Unindexing(u))
  }

  /** Whom an operation is about to remove is in the index. */
  ghost predicate StillIndexed(s: State, p: string) {
    forall u :: HasPc(s, p, Unindexing(u)) ==> p in At(s.index, u)
  }

  /** An operation in flight works on the list that is stored. */
  ghost predicate OnTrack(atts: seq<Attachment>, active: Active) {
    match active.pc
    case Reading => active.op.Create? ==> FreshIn(active.op.att, atts)
    case Saving(list, user) =>
      (match active.op
       case Create(att) => list == atts + [att] && user == att.principal && FreshIn(att, atts)
       case Delete(id) => list == Without(atts, id) && PrincipalOf(atts, id) == Some(user))
    case Indexing(user) => HasPrincipal(atts, user)
    case Unindexing(user) => !HasPrincipal(atts, user)
  }

  ghost predicate FreshIn(att: Attachment, atts: seq<Attachment>) {
    att.principal != "" && forall b :: b in atts ==> b.id != att.id
  }

  ghost predicate ProjectInv(s: State, p: string) {
    var atts := At(s.attachments, p);
    && UniqueIds(atts) && NoBlankPrincipal(atts)
    && (p in s.ops ==> OnTrack(atts, s.ops[p]))
    && (p !in s.tornCreates ==> Covered(s, p) && StillIndexed(s, p))
    && (p !in s.tornDeletes ==> Backed(s, p))
  }

  ghost predicate Inv(s: State) {
    WellKept(s.index) && forall p :: ProjectInv(s, p)
  }

  // What the list operations do to the set of principals.

  lemma CreatePrincipals(atts: seq<Attachment>, att: Attachment)
    ensures forall u :: HasPrincipal(atts + [att], u) <==> HasPrincipal(atts, u) || u == att.principal
    ensures UniqueIds(atts) && FreshIn(att, atts) ==> UniqueIds(atts + [att])
    ensures NoBlankPrincipal(atts) && FreshIn(att, atts) ==> NoBlankPrincipal(atts + [att])
  {
    var list := atts + [att];
    assert list[|atts|] == att;
    forall u
      ensures HasPrincipal(list, u) <==> HasPrincipal(atts, u) || u == att.principal
    {
      if HasPrincipal(atts, u) {
        var i :| 0 <= i < |atts| && atts[i].principal == u;
        assert list[i].principal == u;
      }
    }
  }

  /** Deleting can only take away the deleted attachment's own principal. */
  lemma DeletePrincipals(atts: seq<Attachment>, id: string, user: string)
    requires UniqueIds(atts) && NoBlankPrincipal(atts) && PrincipalOf(atts, id) == Some(user)
    ensures forall u :: u != user ==> (HasPrincipal(Without(atts, id), u) <==> HasPrincipal(atts, u))
    ensures HasPrincipal(atts, user) && user != ""
    ensures UniqueIds(Without(atts, id)) && NoBlankPrincipal(Without(atts, id))
  {
    PrincipalFound(atts, id);
    var victim :| victim in atts && victim.id == id && victim.principal == user;
    var rest := Without(atts, id);
    forall a
      ensures a in rest <==> a in atts && a.id != id
    {
      WithoutMembers(atts, id, a);
    }
    forall u | u != user
      ensures HasPrincipal(rest, u) <==> HasPrincipal(atts, u)
    {
      PrincipalIsMember(rest, u);
      PrincipalIsMember(atts, u);
    }
    PrincipalIsMember(atts, user);
  }

  lemma PrincipalIsMember(atts: seq<Attachment>, u: string)
    ensures HasPrincipal(atts, u) <==> exists a :: a in atts && a.principal == u
  {
  }

  // One step, seen from the project it is about and from every other one.

  /** Two states that look the same from project `q`. */
  ghost predicate SameFor(s: State, next: State, q: string) {
    && At(next.attachments, q) == At(s.attachments, q)
    && (q in next.ops <==> q in s.ops) && (q in s.ops ==> next.ops[q] == s.ops[q])
    && (q in next.tornCreates <==> q in s.tornCreates)
    && (q in next.tornDeletes <==> q in s.tornDeletes)
    && forall u :: q in At(next.index, u) <==> q in At(s.index, u)
  }

  lemma SameProjectInv(s: State, next: State, q: string)
    requires ProjectInv(s, q) && SameFor(s, next, q)
    ensures ProjectInv(next, q)
  {
    assert forall pc :: HasPc(next, q, pc) <==> HasPc(s, q, pc);
  }

  lemma MoveKeepsOthers(s: State, a: Action, q: string)
    requires Inv(s) && Enabled(s, a) && q != a.project
    ensures ProjectInv(Move(s, a), q)
  {
    MoveKeepsIndex(s, a);
    SameProjectInv(s, Move(s, a), q);
  }

  lemma MoveKeepsIndex(s: State, a: Action)
    requires WellKept(s.index) && Enabled(s, a)
    ensures WellKept(Move(s, a).index)
    ensures forall u, x :: x != a.project ==> (x in At(Move(s, a).index, u) <==> x in At(s.index, u))
  {
    if a.Step? {
      match s.ops[a.project].pc
      case Indexing(user) => AddProjectMeaning(s.index, user, a.project);
      case Unindexing(user) => RemoveProjectMeaning(s.index, user, a.project);
      case _ =>
    }
  }

  lemma SaveCreateKeepsOwn(s: State, p: string, att: Attachment, list: seq<Attachment>, user: string, lost: bool)
    requires ProjectInv(s, p) && p in s.ops && s.ops[p] == Active(Create(att), Saving(list, user))
    ensures ProjectInv(Save(s, p, Create(att), list, user, lost), p)
  {
    CreatePrincipals(At(s.attachments, p), att);
  }

  lemma SaveDeleteKeepsOwn(s: State, p: string, id: string, list: seq<Attachment>, user: string, lost: bool)
    requires ProjectInv(s, p) && p in s.ops && s.ops[p] == Active(Delete(id), Saving(list, user))
    ensures ProjectInv(Save(s, p, Delete(id), list, user, lost), p)
  {
    DeletePrincipals(At(s.attachments, p), id, user);
  }

  lemma SaveKeepsOwn(s: State, p: string, lost: bool)
    requires Inv(s) && p in s.ops && s.ops[p].pc.Saving?
    ensures var active := s.ops[p];
            ProjectInv(Save(s, p, active.op, active.pc.list, active.pc.user, lost), p)
  {
    assert ProjectInv(s, p);
    var list, user := s.ops[p].pc.list, s.ops[p].pc.user;
    match s.ops[p].op
    case Create(att) => SaveCreateKeepsOwn(s, p, att, list, user, lost);
    case Delete(id) => SaveDeleteKeepsOwn(s, p, id, list, user, lost);
  }

  lemma IndexingKeepsOwn(s: State, p: string)
    requires Inv(s) && p in s.ops
    requires s.ops[p].pc.Indexing? || s.ops[p].pc.Unindexing?
    ensures ProjectInv(Move(s, Step(p, Answered)), p)
  {
    assert ProjectInv(s, p);
    match s.ops[p].pc
    case Indexing(user) => AddProjectMeaning(s.index, user, p);
    case Unindexing(user) => RemoveProjectMeaning(s.index, user, p);
  }

  lemma MoveKeepsOwn(s: State, a: Action)
    requires Inv(s) && Enabled(s, a)
    ensures ProjectInv(Move(s, a), a.project)
  {
    var p := a.project;
    assert ProjectInv(s, p);
    if a.Step? && !a.outcome.Failed? {
      match s.ops[p].pc
      case Reading =>
      case Saving(_, _) => SaveKeepsOwn(s, p, a.outcome.Lost?);
      case _ =>
        IndexingKeepsOwn(s, p);
        assert Move(s, a) == Move(s, Step(p, Answered));
    }
  }

  lemma MoveKeepsInv(s: State, a: Action)
    requires Inv(s) && Enabled(s, a)
    ensures Inv(Move(s, a))
  {
    MoveKeepsIndex(s, a);
    forall q
      ensures ProjectInv(Move(s, a), q)
    {
      if q == a.project {
        MoveKeepsOwn(s, a);
      } else {
        MoveKeepsOthers(s, a, q);
      }
    }
  }

  lemma {:induction false} RunKeepsInv(s: State, run: seq<Action>)
    requires Inv(s) && ValidRun(s, run)
    ensures Inv(Run(s, run))
    decreases |run|
  {
    if run != [] {
      MoveKeepsInv(s, run[0]);
      RunKeepsInv(Move(s, run[0]), run[1..]);
    }
  }

  // Main results, from the empty store.

  const EMPTY := State(map[], map[], map[], {}, {})

  lemma EmptyInv()
    ensures Inv(EMPTY)
  {
  }

  /** In every reachable state the index of an idle project that no operation left half done
      is exactly its attachments' principals, and stored lists are non-empty without repeats. */
  lemma IndexAgrees(run: seq<Action>, p: string)
    requires ValidRun(EMPTY, run)
    requires var s := Run(EMPTY, run); p !in s.ops && p !in s.tornCreates && p !in s.tornDeletes
    ensures var s := Run(EMPTY, run);
            && WellKept(s.index)
            && forall u :: p in At(s.index, u) <==> HasPrincipal(At(s.attachments, p), u)
  {
    EmptyInv();
    RunKeepsInv(EMPTY, run);
    assert ProjectInv(Run(EMPTY, run), p);
  }

  /** A torn operation errs on one side only: without torn creates nobody with an attachment
      is missing from the index, and without torn deletes nobody in it lacks one. */
  lemma TornOperationsErrOneWay(run: seq<Action>, p: string)
    requires ValidRun(EMPTY, run)
    requires p !in Run(EMPTY, run).ops
    ensures var s := Run(EMPTY, run);
            && (p !in s.tornCreates ==> forall u :: HasPrincipal(At(s.attachments, p), u) ==> p in At(s.index, u))
            && (p !in s.tornDeletes ==> forall u :: p in At(s.index, u) ==> HasPrincipal(At(s.attachments, p), u))
  {
    EmptyInv();
    RunKeepsInv(EMPTY, run);
    assert ProjectInv(Run(EMPTY, run), p);
  }

  // Exactly when an interruption leaves the index wrong.

  /** The index has the project for exactly the principals of its attachments. */
  ghost predicate Exact(s: State, p: string) {
    forall u :: p in At(s.index, u) <==> HasPrincipal(At(s.attachments, p), u)
  }

  /** The interrupted operation has changed the principals, and will not index the change. */
  ghost predicate ChangeGoesUnindexed(s: State, p: string, outcome: Outcome)
    requires p in s.ops
  {
    match s.ops[p].pc
    case Reading => false
    case Saving(list, user) =>
      outcome.Lost? && if s.ops[p].op.Create? then p !in At(s.index, user) else !HasPrincipal(list, user)
    case Indexing(user) => outcome.Failed? && p !in At(s.index, user)
    case Unindexing(_) => outcome.Failed?
  }

  lemma SaveIsExactIff(s: State, p: string, op: Op, list: seq<Attachment>, user: string)
    requires Inv(s) && p in s.ops && s.ops[p] == Active(op, Saving(list, user))
    requires p !in s.tornCreates && p !in s.tornDeletes
    ensures Exact(Save(s, p, op, list, user, true), p) <==> !ChangeGoesUnindexed(s, p, Lost)
  {
    assert ProjectInv(s, p);
    match op
    case Create(att) => CreatePrincipals(At(s.attachments, p), att);
    case Delete(id) =>
      DeletePrincipals(At(s.attachments, p), id, user);
      assert p in At(s.index, user);
  }

  lemma StopIsHarmlessIff(s: State, p: string, outcome: Outcome)
    requires Inv(s) && p in s.ops && outcome != Answered
    requires p !in s.tornCreates && p !in s.tornDeletes
    ensures Exact(Move(s, Step(p, outcome)), p) <==> !ChangeGoesUnindexed(s, p, outcome)
  {
    assert ProjectInv(s, p);
    match s.ops[p].pc
    case Reading =>
    case Saving(list, user) =>
      if outcome.Lost? {
        SaveIsExactIff(s, p, s.ops[p].op, list, user);
      }
    case Indexing(user) =>
      AddProjectMeaning(s.index, user, p);
    case Unindexing(user) =>
      RemoveProjectMeaning(s.index, user, p);
      assert HasPc(s, p, Unindexing(user));
  }

  /** From any reachable state of a project without torn operations, an operation that stops at
      its next call -- refused, or applied but answered with an error -- leaves the index wrong
      if and only if it saved a list with other principals that it will not index: a create
      whose user had no attachment to the project, or a delete of its user's last one. */
  lemma InterruptionIsHarmlessIff(run: seq<Action>, p: string, outcome: Outcome)
    requires ValidRun(EMPTY, run) && outcome != Answered
    requires var s := Run(EMPTY, run); p in s.ops && p !in s.tornCreates && p !in s.tornDeletes
    ensures Exact(Move(Run(EMPTY, run), Step(p, outcome)), p) <==> !ChangeGoesUnindexed(Run(EMPTY, run), p, outcome)
  {
    EmptyInv();
    RunKeepsInv(EMPTY, run);
    StopIsHarmlessIff(Run(EMPTY, run), p, outcome);
  }

  // The store's methods are these steps run without interruption.

  ghost function Steps(p: string, n: nat): seq<Action> {
    if n == 0 then [] else [Step(p, Answered)] + Steps(p, n - 1)
  }

  /** A read followed by this many writes. */
  ghost function Uninterrupted(p: string, op: Op, writes: nat): seq<Action> {
    [Begin(p, op)] + Steps(p, writes + 1)
  }

  lemma FirstStep(s: State, p: string, n: nat)
    requires p in s.ops && ValidRun(Move(s, Step(p, Answered)), Steps(p, n))
    ensures ValidRun(s, Steps(p, n + 1))
    ensures Run(s, Steps(p, n + 1)) == Run(Move(s, Step(p, Answered)), Steps(p, n))
  {
    assert Steps(p, n + 1)[1..] == Steps(p, n);
  }

  lemma BeginThenSteps(s: State, p: string, op: Op, writes: nat)
    requires Enabled(s, Begin(p, op)) && ValidRun(Move(s, Begin(p, op)), Steps(p, writes + 1))
    ensures ValidRun(s, Uninterrupted(p, op, writes))
    ensures Run(s, Uninterrupted(p, op, writes)) == Run(Move(s, Begin(p, op)), Steps(p, writes + 1))
  {
    assert Uninterrupted(p, op, writes)[1..] == Steps(p, writes + 1);
  }

  lemma CreateRunsAlone(s: State, p: string, att: Attachment)
    requires Enabled(s, Begin(p, Create(att)))
    ensures var run := Uninterrupted(p, Create(att), 2);
            && ValidRun(s, run)
            && Run(s, run) == s.(attachments := s.attachments[p := At(s.attachments, p) + [att]],
                                 index := AddProject(s.index, att.principal, p))
  {
    var s1 := Move(s, Begin(p, Create(att)));
    var s2 := Move(s1, Step(p, Answered));
    var s3 := Move(s2, Step(p, Answered));
    assert Move(s3, Step(p, Answered)).ops == s.ops;
    FirstStep(s3, p, 0);
    FirstStep(s2, p, 1);
    FirstStep(s1, p, 2);
    BeginThenSteps(s, p, Create(att), 2);
  }

  /** How many writes a delete makes. */
  ghost function DeleteWrites(atts: seq<Attachment>, id: string): nat {
    match PrincipalOf(atts, id)
    case None => 0
    case Some(user) => if HasPrincipal(Without(atts, id), user) || user == "" then 1 else 2
  }

  ghost function Deleted(s: State, p: string, id: string): State {
    var atts := At(s.attachments, p);
    match PrincipalOf(atts, id)
    case None => s
    case Some(user) =>
      s.(attachments := s.attachments[p := Without(atts, id)],
         index := if DeleteWrites(atts, id) == 2 then RemoveProject(s.index, user, p) else s.index)
  }

  lemma DeleteRunsAlone(s: State, p: string, id: string)
    requires p !in s.ops
    ensures var run := Uninterrupted(p, Delete(id), DeleteWrites(At(s.attachments, p), id));
            ValidRun(s, run) && Run(s, run) == Deleted(s, p, id)
  {
    var writes := DeleteWrites(At(s.attachments, p), id);
    var s1 := Move(s, Begin(p, Delete(id)));
    var s2 := Move(s1, Step(p, Answered));
    if writes == 0 {
      assert s2.ops == s.ops;
    } else {
      var s3 := Move(s2, Step(p, Answered));
      if writes == 1 {
        assert s3.ops == s.ops;
      } else {
        assert Move(s3, Step(p, Answered)).ops == s.ops;
        FirstStep(s3, p, 0);
      }
      FirstStep(s2, p, writes - 1);
    }
    FirstStep(s1, p, writes);
    BeginThenSteps(s, p, Delete(id), writes);
  }

  // Both kinds of damage happen.

  lemma {:induction false} RunsCompose(s: State, run1: seq<Action>, run2: seq<Action>)
    requires ValidRun(s, run1) && ValidRun(Run(s, run1), run2)
    ensures ValidRun(s, run1 + run2) && Run(s, run1 + run2) == Run(Run(s, run1), run2)
    decreases |run1|
  {
    if run1 == [] {
      assert run1 + run2 == run2;
    } else {
      RunsCompose(Move(s, run1[0]), run1[1..], run2);
      assert (run1 + run2)[1..] == run1[1..] + run2;
    }
  }

  /** An operation that is refused at its second write: the read and one write, then the failure. */
  ghost function Interrupted(p: string, op: Op): seq<Action> {
    [Begin(p, op), Step(p, Answered), Step(p, Answered), Step(p, Failed)]
  }

  lemma FourMoves(s: State, p: string, op: Op, s1: State, s2: State, s3: State)
    requires Enabled(s, Begin(p, op)) && s1 == Move(s, Begin(p, op))
    requires p in s1.ops && s2 == Move(s1, Step(p, Answered))
    requires p in s2.ops && s3 == Move(s2, Step(p, Answered)) && p in s3.ops
    ensures ValidRun(s, Interrupted(p, op)) && Run(s, Interrupted(p, op)) == Move(s3, Step(p, Failed))
  {
    var run := Interrupted(p, op);
    assert run[1..][1..][1..][1..] == [];
    assert run[1..][0] == Step(p, Answered) && run[1..][1..][0] == Step(p, Answered)
        && run[1..][1..][1..][0] == Step(p, Failed);
    assert ValidRun(s3, run[1..][1..][1..]) && Run(s3, run[1..][1..][1..]) == Move(s3, Step(p, Failed));
    assert ValidRun(s2, run[1..][1..]) && Run(s2, run[1..][1..]) == Run(s3, run[1..][1..][1..]);
  }

  /** Four steps from the empty store leave an idle project whose only principal is not indexed. */
  lemma InterruptedCreateHarms(p: string, att: Attachment)
    requires att.principal != ""
    ensures var run := Interrupted(p, Create(att));
            && ValidRun(EMPTY, run) && p !in Run(EMPTY, run).ops
            && HasPrincipal(At(Run(EMPTY, run).attachments, p), att.principal)
            && p !in At(Run(EMPTY, run).index, att.principal)
  {
    var s1 := Move(EMPTY, Begin(p, Create(att)));
    var s2 := Move(s1, Step(p, Answered));
    var s3 := Move(s2, Step(p, Answered));
    FourMoves(EMPTY, p, Create(att), s1, s2, s3);
    CreatePrincipals([], att);
    assert [] + [att] == [att];
  }

  /** Four more after a create leave an idle project indexed for a user without attachments. */
  lemma InterruptedDeleteHarms(p: string, att: Attachment)
    requires att.principal != ""
    ensures var run := Uninterrupted(p, Create(att), 2) + Interrupted(p, Delete(att.id));
            && ValidRun(EMPTY, run) && p !in Run(EMPTY, run).ops
            && !HasPrincipal(At(Run(EMPTY, run).attachments, p), att.principal)
            && p in At(Run(EMPTY, run).index, att.principal)
  {
    CreateRunsAlone(EMPTY, p, att);
    var s := Run(EMPTY, Uninterrupted(p, Create(att), 2));
    assert At(s.attachments, p) == [att];
    assert PrincipalOf([att], att.id) == Some(att.principal);
    assert Without([att], att.id) == [];
    var s1 := Move(s, Begin(p, Delete(att.id)));
    var s2 := Move(s1, Step(p, Answered));
    var s3 := Move(s2, Step(p, Answered));
    FourMoves(s, p, Delete(att.id), s1, s2, s3);
    RunsCompose(EMPTY, Uninterrupted(p, Create(att), 2), Interrupted(p, Delete(att.id)));
  }
}
