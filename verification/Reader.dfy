/**
  A reader of the policy fragment the store writes (internal/cedar/store.go and the embedded
  templates). White space between the words does not matter to it. Whatever the store prints
  is read back as the permits it stands for, so the text and the permits are the same thing.
 */
module Reader {
  import opened Wrappers
  import opened Policies

  predicate White(c: char) { c == ' ' || c == '\n' }

  function Skip(s: string): (r: string)
    ensures |r| <= |s|
  {
    if s != "" && White(s[0]) then Skip(s[1..]) else s
  }

  /** What follows the word `w`, which white space may precede. */
  function Expect(s: string, w: string): (rest: Option<string>)
    requires w != ""
    ensures rest.Some? ==> |rest.value| < |s|
  {
    var t := Skip(s);
    if w <= t then Some(t[|w|..]) else None
  }

  function ExpectAll(s: string, ws: seq<string>): (rest: Option<string>)
    requires "" !in ws
    ensures rest.Some? ==> |rest.value| + |ws| <= |s|
    decreases |ws|
  {
    if ws == [] then Some(s)
    else
      match Expect(s, ws[0])
      case Some(t) => ExpectAll(t, ws[1..])
      case None => None
  }

  /** The text up to the first `stop`, and what follows that. */
  function Until(s: string, stop: char): (r: Option<(string, string)>)
    ensures r.Some? ==> |r.value.1| < |s|
  {
    if s == "" then None
    else if s[0] == stop then Some(("", s[1..]))
    else
      match Until(s[1..], stop)
      case Some((text, rest)) => Some(([s[0]] + text, rest))
      case None => None
  }

  /** kind::"id", without escapes in the id */
  function ReadEntity(s: string): (r: Option<(Entity, string)>)
    ensures r.Some? ==> |r.value.1| < |s|
  {
    match Until(Skip(s), '"')
    case None => None
    case Some((kind, s1)) =>
      if |kind| < 2 || kind[|kind| - 2..] != "::" then None
      else
        match Until(s1, '"')
        case None => None
        case Some((id, s2)) => if '\\' in id then None else Some((Entity(kind[..|kind| - 2], id), s2))
  }

  /** The rest of a list of actions, at least one. */
  function ReadList(s: string): (r: Option<(seq<string>, string)>)
    ensures r.Some? ==> |r.value.1| < |s|
    decreases |s|
  {
    match ReadEntity(s)
    case None => None
    case Some((e, s1)) =>
      if e.kind != "HCP::Action" then None
      else
        match Expect(s1, ",")
        case Some(s2) =>
          (match ReadList(s2)
           case Some((actions, s3)) => Some(([e.id] + actions, s3))
           case None => None)
        case None =>
          match Expect(s1, "]")
          case Some(s2) => Some(([e.id], s2))
          case None => None
  }

  function ReadActions(s: string): (r: Option<(seq<string>, string)>)
    ensures r.Some? ==> |r.value.1| < |s|
  {
    match Expect(s, "]")
    case Some(s1) => Some(([], s1))
    case None => ReadList(s)
  }

  /** permit ( principal == entity */
  function ReadHead(s: string): (r: Option<(Entity, string)>)
    ensures r.Some? ==> |r.value.1| < |s|
  {
    match ExpectAll(s, ["permit", "(", "principal", "=="])
    case Some(s1) => ReadEntity(s1)
    case None => None
  }

  /** , action -- or -- , action in [ .. ] */
  function ReadAction(s: string): (r: Option<(Actions, string)>)
    ensures r.Some? ==> |r.value.1| < |s|
  {
    match ExpectAll(s, [",", "action"])
    case None => None
    case Some(s1) =>
      match ExpectAll(s1, ["in", "["])
      case None => if Expect(s1, ",").Some? then Some((AnyAction, s1)) else None
      case Some(s2) =>
        match ReadActions(s2)
        case Some((actions, s3)) => Some((OneOf(actions), s3))
        case None => None
  }

  /** , resource in entity ) */
  function ReadResource(s: string): (r: Option<(Entity, string)>)
    ensures r.Some? ==> |r.value.1| < |s|
  {
    match ExpectAll(s, [",", "resource", "in"])
    case None => None
    case Some(s1) =>
      match ReadEntity(s1)
      case None => None
      case Some((e, s2)) =>
        match Expect(s2, ")")
        case Some(s3) => Some((e, s3))
        case None => None
  }

  /** when { condition } */
  function ReadWhen(s: string): (r: Option<(string, string)>)
    ensures r.Some? ==> |r.value.1| < |s|
  {
    match ExpectAll(s, ["when", "{"])
    case None => None
    case Some(s1) =>
      match Until(s1, '}')
      case None => None
      case Some((c, s2)) =>
        if |c| < 2 || c[0] != ' ' || c[|c| - 1] != ' ' then None else Some((c[1..|c| - 1], s2))
  }

  /** Any number of conditions, and the semicolon. */
  function ReadWhens(s: string): (r: Option<(seq<string>, string)>)
    ensures r.Some? ==> |r.value.1| < |s|
    decreases |s|
  {
    match Expect(s, ";")
    case Some(s1) => Some(([], s1))
    case None =>
      match ReadWhen(s)
      case None => None
      case Some((c, s1)) =>
        match ReadWhens(s1)
        case Some((cs, s2)) => Some(([c] + cs, s2))
        case None => None
  }

  function ReadPermit(s: string): (r: Option<(Permit, string)>)
    ensures r.Some? ==> |r.value.1| < |s|
  {
    match ReadHead(s)
    case None => None
    case Some((principal, s1)) =>
      match ReadAction(s1)
      case None => None
      case Some((actions, s2)) =>
        match ReadResource(s2)
        case None => None
        case Some((resource, s3)) =>
          match ReadWhens(s3)
          case None => None
          case Some((conditions, s4)) => Some((Permit(principal, actions, resource, conditions), s4))
  }

  /** One item after the other, until only white space is left. */
  function ReadAll<T>(read: string -> Option<(T, string)>, s: string): Option<seq<T>>
    decreases |s|
  {
    if Skip(s) == "" then Some([])
    else
      match read(s)
      case None => None
      case Some((x, rest)) =>
        if |rest| >= |s| then None
        else
          match ReadAll(read, rest)
          case Some(xs) => Some([x] + xs)
          case None => None
  }

  function ReadPolicies(s: string): Option<seq<Permit>> { ReadAll(ReadPermit, s) }

  // Reading goes on the same way when more text follows.

  lemma {:induction false} SkipMore(s: string, t: string)
    ensures Skip(s + t) == if Skip(s) == "" then Skip(t) else Skip(s) + t
  {
    if s == "" {
      assert s + t == t;
    } else if White(s[0]) {
      assert (s + t)[1..] == s[1..] + t;
      SkipMore(s[1..], t);
    }
  }

  lemma {:induction false} SkipTwice(s: string)
    ensures Skip(Skip(s)) == Skip(s)
  {
    if s != "" && White(s[0]) {
      SkipTwice(s[1..]);
    }
  }

  lemma ExpectMore(s: string, w: string, t: string)
    requires w != "" && Expect(s, w).Some?
    ensures Expect(s + t, w) == Some(Expect(s, w).value + t)
  {
    SkipMore(s, t);
    assert (Skip(s) + t)[|w|..] == Skip(s)[|w|..] + t;
  }

  /** Where one word stands no other does that starts differently. */
  lemma ExpectOther(s: string, w: string, other: string)
    requires w != "" && other != "" && w[0] != other[0] && Expect(s, w).Some?
    ensures Expect(s, other) == None
  {
  }

  lemma {:induction false} ExpectAllMore(s: string, ws: seq<string>, t: string)
    requires "" !in ws && ExpectAll(s, ws).Some?
    ensures ExpectAll(s + t, ws) == Some(ExpectAll(s, ws).value + t)
    decreases |ws|
  {
    if ws != [] {
      ExpectMore(s, ws[0], t);
      ExpectAllMore(Expect(s, ws[0]).value, ws[1..], t);
    }
  }

  lemma {:induction false} UntilMore(s: string, stop: char, t: string)
    requires Until(s, stop).Some?
    ensures Until(s + t, stop) == Some((Until(s, stop).value.0, Until(s, stop).value.1 + t))
  {
    assert (s + t)[1..] == s[1..] + t;
    if s[0] != stop {
      UntilMore(s[1..], stop, t);
    }
  }

  lemma EntityMore(s: string, t: string)
    requires ReadEntity(s).Some?
    ensures ReadEntity(s + t) == Some((ReadEntity(s).value.0, ReadEntity(s).value.1 + t))
  {
    SkipMore(s, t);
    UntilMore(Skip(s), '"', t);
    UntilMore(Until(Skip(s), '"').value.1, '"', t);
  }

  lemma {:induction false} ListMore(s: string, t: string)
    requires ReadList(s).Some?
    ensures ReadList(s + t) == Some((ReadList(s).value.0, ReadList(s).value.1 + t))
    decreases |s|
  {
    EntityMore(s, t);
    var s1 := ReadEntity(s).value.1;
    if Expect(s1, ",").Some? {
      ExpectMore(s1, ",", t);
      ListMore(Expect(s1, ",").value, t);
    } else {
      ExpectMore(s1, "]", t);
      ExpectOther(s1 + t, "]", ",");
    }
  }

  /** A one-letter word that does not come next still does not. */
  lemma ExpectStays(s: string, w: string, t: string)
    requires |w| == 1 && Skip(s) != "" && Expect(s, w) == None
    ensures Expect(s + t, w) == None
  {
    SkipMore(s, t);
    assert w[0] != Skip(s)[0] by {
      assert w == [w[0]];
    }
  }

  lemma ActionsMore(s: string, t: string)
    requires ReadActions(s).Some?
    ensures ReadActions(s + t) == Some((ReadActions(s).value.0, ReadActions(s).value.1 + t))
  {
    if Expect(s, "]").Some? {
      ExpectMore(s, "]", t);
    } else {
      ExpectStays(s, "]", t);
      ListMore(s, t);
    }
  }

  lemma HeadMore(s: string, t: string)
    requires ReadHead(s).Some?
    ensures ReadHead(s + t) == Some((ReadHead(s).value.0, ReadHead(s).value.1 + t))
  {
    var ws := ["permit", "(", "principal", "=="];
    ExpectAllMore(s, ws, t);
    EntityMore(ExpectAll(s, ws).value, t);
  }

  lemma ActionMore(s: string, t: string)
    requires ReadAction(s).Some?
    ensures ReadAction(s + t) == Some((ReadAction(s).value.0, ReadAction(s).value.1 + t))
  {
    ExpectAllMore(s, [",", "action"], t);
    var s1 := ExpectAll(s, [",", "action"]).value;
    if ExpectAll(s1, ["in", "["]).Some? {
      ExpectAllMore(s1, ["in", "["], t);
      ActionsMore(ExpectAll(s1, ["in", "["]).value, t);
    } else {
      ExpectMore(s1, ",", t);
      ExpectOther(s1 + t, ",", "in");
    }
  }

  lemma ResourceMore(s: string, t: string)
    requires ReadResource(s).Some?
    ensures ReadResource(s + t) == Some((ReadResource(s).value.0, ReadResource(s).value.1 + t))
  {
    var ws := [",", "resource", "in"];
    ExpectAllMore(s, ws, t);
    var s1 := ExpectAll(s, ws).value;
    EntityMore(s1, t);
    ExpectMore(ReadEntity(s1).value.1, ")", t);
  }

  lemma WhenMore(s: string, t: string)
    requires ReadWhen(s).Some?
    ensures ReadWhen(s + t) == Some((ReadWhen(s).value.0, ReadWhen(s).value.1 + t))
    ensures Skip(s) != ""
  {
    ExpectAllMore(s, ["when", "{"], t);
    UntilMore(ExpectAll(s, ["when", "{"]).value, '}', t);
  }

  lemma {:induction false} WhensMore(s: string, t: string)
    requires ReadWhens(s).Some?
    ensures ReadWhens(s + t) == Some((ReadWhens(s).value.0, ReadWhens(s).value.1 + t))
    decreases |s|
  {
    if Expect(s, ";").Some? {
      ExpectMore(s, ";", t);
    } else {
      WhenMore(s, t);
      ExpectStays(s, ";", t);
      WhensMore(ReadWhen(s).value.1, t);
    }
  }

  lemma PermitMore(s: string, t: string)
    requires ReadPermit(s).Some?
    ensures ReadPermit(s + t) == Some((ReadPermit(s).value.0, ReadPermit(s).value.1 + t))
  {
    HeadMore(s, t);
    var s1 := ReadHead(s).value.1;
    ActionMore(s1, t);
    var s2 := ReadAction(s1).value.1;
    ResourceMore(s2, t);
    WhensMore(ReadResource(s2).value.1, t);
  }

  /** More text leaves what is read alone, and white space in front of it does not matter. */
  ghost predicate Steady<T(!new)>(read: string -> Option<(T, string)>) {
    && (forall s, t {:trigger read(s + t)} ::
          read(s).Some? ==> read(s + t) == Some((read(s).value.0, read(s).value.1 + t)))
    && (forall s, t {:trigger read(s + t)} :: Skip(s) == "" ==> read(s + t) == read(t))
  }

  lemma BlankFront<T(!new)>(read: string -> Option<(T, string)>, s: string, t: string)
    requires Steady(read) && Skip(s) == "" && ReadAll(read, t).Some?
    ensures ReadAll(read, s + t) == ReadAll(read, t)
  {
    SkipMore(s, t);
    assert read(s + t) == read(t);
  }

  lemma ItemFront<T(!new)>(read: string -> Option<(T, string)>, s: string, t: string)
    requires Steady(read) && Skip(s) != "" && read(s).Some? && |read(s).value.1| < |s|
    requires ReadAll(read, read(s).value.1 + t).Some?
    ensures ReadAll(read, s + t) == Some([read(s).value.0] + ReadAll(read, read(s).value.1 + t).value)
  {
    SkipMore(s, t);
    assert read(s + t) == Some((read(s).value.0, read(s).value.1 + t));
  }

  lemma ItemFirst<T(!new)>(read: string -> Option<(T, string)>, s: string)
    requires Skip(s) != "" && ReadAll(read, s).Some?
    ensures read(s).Some? && |read(s).value.1| < |s| && ReadAll(read, read(s).value.1).Some?
    ensures ReadAll(read, s).value == [read(s).value.0] + ReadAll(read, read(s).value.1).value
  {
  }

  lemma ConsAppend<T>(x: T, xs: seq<T>, ys: seq<T>)
    ensures [x] + (xs + ys) == ([x] + xs) + ys
  {
  }

  /** Items read one text after the other are the items of the joined text. */
  lemma {:induction false} ReadAllAppends<T(!new)>(read: string -> Option<(T, string)>, s: string, t: string)
    requires Steady(read) && ReadAll(read, s).Some? && ReadAll(read, t).Some?
    ensures ReadAll(read, s + t) == Some(ReadAll(read, s).value + ReadAll(read, t).value)
    decreases |s|
  {
    if Skip(s) == "" {
      BlankFront(read, s, t);
      assert [] + ReadAll(read, t).value == ReadAll(read, t).value;
    } else {
      ItemFirst(read, s);
      ReadAllAppends(read, read(s).value.1, t);
      ItemFront(read, s, t);
      ConsAppend(read(s).value.0, ReadAll(read, read(s).value.1).value, ReadAll(read, t).value);
    }
  }

  lemma PermitIsSteady()
    ensures Steady(ReadPermit)
  {
    forall s, t | ReadPermit(s).Some?
      ensures ReadPermit(s + t) == Some((ReadPermit(s).value.0, ReadPermit(s).value.1 + t))
    {
      PermitMore(s, t);
    }
    forall s, t | Skip(s) == ""
      ensures ReadPermit(s + t) == ReadPermit(t)
    {
      SkipMore(s, t);
      assert Expect(s + t, "permit") == Expect(t, "permit");
    }
  }

  /** Policies read one text after the other are the policies of the joined text. */
  lemma PoliciesAppend(s: string, t: string)
    requires ReadPolicies(s).Some? && ReadPolicies(t).Some?
    ensures ReadPolicies(s + t) == Some(ReadPolicies(s).value + ReadPolicies(t).value)
  {
    PermitIsSteady();
    ReadAllAppends(ReadPermit, s, t);
  }

  // What is printed is read back.

  predicate Blank(gap: string) { forall c :: c in gap ==> White(c) }

  lemma {:induction false} SkipBlank(gap: string, s: string)
    requires Blank(gap)
    ensures Skip(gap + s) == Skip(s)
  {
    if gap == "" {
      assert gap + s == s;
    } else {
      assert (gap + s)[1..] == gap[1..] + s && gap[0] in gap;
      SkipBlank(gap[1..], s);
    }
  }

  lemma WordIsRead(gap: string, w: string, rest: string)
    requires Blank(gap) && w != "" && !White(w[0])
    ensures Expect(gap + (w + rest), w) == Some(rest)
  {
    SkipBlank(gap, w + rest);
    assert (w + rest)[|w|..] == rest;
  }

  lemma NextWord(gap: string, w: string, ws: seq<string>, rest: string)
    requires Blank(gap) && w != "" && !White(w[0]) && "" !in ws
    ensures ExpectAll(gap + (w + rest), [w] + ws) == ExpectAll(rest, ws)
  {
    WordIsRead(gap, w, rest);
    assert ([w] + ws)[1..] == ws;
  }

  /** Text between quotes or braces that ends where it seems to. */
  predicate Plain(text: string) { '"' !in text && '\\' !in text }

  lemma {:induction false} UntilIsRead(text: string, stop: char, rest: string)
    requires stop !in text
    ensures Until(text + ([stop] + rest), stop) == Some((text, rest))
  {
    var s := text + ([stop] + rest);
    if text == "" {
      assert s == [stop] + rest && s[1..] == rest;
    } else {
      assert s[1..] == text[1..] + ([stop] + rest) && s[0] == text[0];
      UntilIsRead(text[1..], stop, rest);
      assert text == [text[0]] + text[1..];
    }
  }

  predicate PlainEntity(e: Entity) {
    '"' !in e.kind && Plain(e.id) && e.kind != "" && !White(e.kind[0])
  }

  lemma EntityIsRead(gap: string, e: Entity, rest: string)
    requires Blank(gap) && PlainEntity(e)
    ensures ReadEntity(gap + (EntityText(e) + rest)) == Some((e, rest))
  {
    var s2 := e.id + (['"'] + rest);
    var s1 := (e.kind + "::") + (['"'] + s2);
    assert EntityText(e) + rest == s1;
    SkipBlank(gap, s1);
    UntilIsRead(e.kind + "::", '"', s2);
    UntilIsRead(e.id, '"', rest);
    var kind := e.kind + "::";
    assert kind[..|kind| - 2] == e.kind && kind[|kind| - 2..] == "::";
  }

  lemma HeadIsSpelled(x: string)
    ensures "permit (\n    principal == " + x
         == "" + ("permit" + (" " + ("(" + ("\n    " + ("principal" + (" " + ("==" + (" " + x))))))))
  {
  }

  lemma HeadWordsAreRead(x: string)
    ensures ExpectAll("permit (\n    principal == " + x, ["permit", "(", "principal", "=="]) == Some(" " + x)
  {
    var r3 := " " + ("==" + (" " + x));
    var r2 := "\n    " + ("principal" + r3);
    var r1 := " " + ("(" + r2);
    HeadIsSpelled(x);
    NextWord("", "permit", ["(", "principal", "=="], r1);
    NextWord(" ", "(", ["principal", "=="], r2);
    NextWord("\n    ", "principal", ["=="], r3);
    NextWord(" ", "==", [], " " + x);
  }

  lemma HeadIsRead(e: Entity, rest: string)
    requires PlainEntity(e)
    ensures ReadHead("permit (\n    principal == " + (EntityText(e) + rest)) == Some((e, rest))
  {
    HeadWordsAreRead(EntityText(e) + rest);
    EntityIsRead(" ", e, rest);
  }

  lemma Regroup(a: string, b: string, c: string, d: string, e: string)
    ensures (a + (b + c)) + d + e == a + (b + (c + d + e))
  {
  }

  lemma {:induction false} JoinFirst(first: string, others: seq<string>, sep: string)
    requires others != []
    ensures Join([first] + others, sep) == first + (sep + Join(others, sep))
  {
    var all := [first] + others;
    var k := |others| - 1;
    assert all[..|all| - 1] == [first] + others[..k] && all[|all| - 1] == others[k];
    if k > 0 {
      JoinFirst(first, others[..k], sep);
      Regroup(first, sep, Join(others[..k], sep), sep, others[k]);
    } else {
      assert [first] + others[..k] == [first];
    }
  }

  lemma ActionTextsFirst(actions: seq<string>)
    requires actions != []
    ensures ActionTexts(actions) == [ActionText(actions[0])] + ActionTexts(actions[1..])
  {
  }

  predicate PlainList(actions: seq<string>) { forall a :: a in actions ==> Plain(a) }

  lemma ActionIsEntity(action: string)
    ensures ActionText(action) == EntityText(Entity("HCP::Action", action))
  {
    assert "HCP::Action::\"" == "HCP::Action" + "::\"";
  }

  lemma LastItemIsRead(before: string, action: string, after: string, rest: string)
    requires Plain(action) && Blank(before) && Blank(after)
    ensures ReadList(before + (ActionText(action) + (after + ("]" + rest)))) == Some(([action], rest))
  {
    ActionIsEntity(action);
    EntityIsRead(before, Entity("HCP::Action", action), after + ("]" + rest));
    WordIsRead(after, "]", rest);
    ExpectOther(after + ("]" + rest), "]", ",");
  }

  lemma ItemIsRead(before: string, action: string, tail: string, others: seq<string>, rest: string)
    requires Plain(action) && Blank(before) && ReadList(tail) == Some((others, rest))
    ensures ReadList(before + (ActionText(action) + ("" + ("," + tail)))) == Some(([action] + others, rest))
  {
    ActionIsEntity(action);
    EntityIsRead(before, Entity("HCP::Action", action), "" + ("," + tail));
    WordIsRead("", ",", tail);
  }

  lemma JoinSpelled(first: string, between: string, joined: string, end: string)
    ensures (first + (("," + between) + joined)) + end == first + ("" + ("," + (between + (joined + end))))
  {
  }

  /** Actions joined by commas, whatever the white space around them. */
  lemma {:induction false} ListIsRead(actions: seq<string>, before: string, between: string, after: string,
                                      rest: string)
    requires actions != [] && PlainList(actions) && Blank(before) && Blank(between) && Blank(after)
    ensures ReadList(before + (Join(ActionTexts(actions), "," + between) + (after + ("]" + rest))))
         == Some((actions, rest))
    decreases |actions|
  {
    var first, others := actions[0], actions[1..];
    var sep := "," + between;
    ActionTextsFirst(actions);
    assert actions == [first] + others;
    if others == [] {
      assert actions == [first] && Join(ActionTexts(actions), sep) == ActionText(first);
      LastItemIsRead(before, first, after, rest);
    } else {
      var joined, end := Join(ActionTexts(others), sep), after + ("]" + rest);
      JoinFirst(ActionText(first), ActionTexts(others), sep);
      JoinSpelled(ActionText(first), between, joined, end);
      ListIsRead(others, between, between, after, rest);
      ItemIsRead(before, first, between + (joined + end), others, rest);
    }
  }

  lemma ActionsAreRead(actions: seq<string>, before: string, between: string, after: string, rest: string)
    requires PlainList(actions) && Blank(before) && Blank(between) && Blank(after)
    ensures ReadActions(before + (Join(ActionTexts(actions), "," + between) + (after + ("]" + rest))))
         == Some((actions, rest))
  {
    if actions == [] {
      assert before + ("" + (after + ("]" + rest))) == (before + after) + ("]" + rest);
      WordIsRead(before + after, "]", rest);
    } else {
      ListIsRead(actions, before, between, after, rest);
      var text := Join(ActionTexts(actions), "," + between) + (after + ("]" + rest));
      ListStarts(actions, "," + between);
      SkipBlank(before, text);
    }
  }

  /** A list of actions starts with an H. */
  lemma ListStarts(actions: seq<string>, sep: string)
    requires actions != []
    ensures Join(ActionTexts(actions), sep) != "" && Join(ActionTexts(actions), sep)[0] == 'H'
  {
    ActionTextsFirst(actions);
    if |actions| > 1 {
      JoinFirst(ActionText(actions[0]), ActionTexts(actions[1..]), sep);
    }
  }

  lemma ActionWordIsRead(x: string)
    ensures ExpectAll(",\n    action" + x, [",", "action"]) == Some(x)
  {
    assert ",\n    action" + x == "" + ("," + ("\n    " + ("action" + x)));
    NextWord("", ",", ["action"], "\n    " + ("action" + x));
    NextWord("\n    ", "action", [], x);
  }

  lemma AnyActionIsRead(rest: string)
    requires Expect(rest, ",").Some?
    ensures ReadAction(",\n    action" + rest) == Some((AnyAction, rest))
  {
    ActionWordIsRead(rest);
    ExpectOther(rest, ",", "in");
  }

  lemma BracketIsRead(x: string)
    ensures ExpectAll(" in [" + x, ["in", "["]) == Some(x)
  {
    assert " in [" + x == " " + ("in" + (" " + ("[" + x)));
    NextWord(" ", "in", ["["], " " + ("[" + x));
    NextWord(" ", "[", [], x);
  }

  lemma SomeActionsAreRead(actions: seq<string>, before: string, between: string, after: string, rest: string)
    requires PlainList(actions) && Blank(before) && Blank(between) && Blank(after)
    ensures ReadAction(",\n    action" + (" in [" + (before + (Join(ActionTexts(actions), "," + between)
                                                              + (after + ("]" + rest))))))
         == Some((OneOf(actions), rest))
  {
    var list := before + (Join(ActionTexts(actions), "," + between) + (after + ("]" + rest)));
    ActionWordIsRead(" in [" + list);
    BracketIsRead(list);
    ActionsAreRead(actions, before, between, after, rest);
  }

  lemma ResourceIsSpelled(x: string)
    ensures ",\n    resource in " + x == "" + ("," + ("\n    " + ("resource" + (" " + ("in" + (" " + x))))))
  {
  }

  lemma ResourceWordsAreRead(x: string)
    ensures ExpectAll(",\n    resource in " + x, [",", "resource", "in"]) == Some(" " + x)
  {
    var r2 := " " + ("in" + (" " + x));
    var r1 := "\n    " + ("resource" + r2);
    ResourceIsSpelled(x);
    NextWord("", ",", ["resource", "in"], r1);
    NextWord("\n    ", "resource", ["in"], r2);
    NextWord(" ", "in", [], " " + x);
  }

  lemma ResourceIsRead(e: Entity, rest: string)
    requires PlainEntity(e)
    ensures ReadResource(",\n    resource in " + (EntityText(e) + ("\n)" + rest))) == Some((e, rest))
  {
    ResourceWordsAreRead(EntityText(e) + ("\n)" + rest));
    EntityIsRead(" ", e, "\n)" + rest);
    assert "\n)" + rest == "\n" + (")" + rest);
    WordIsRead("\n", ")", rest);
  }

  lemma {:induction false} WhenConcat(a: seq<string>, b: seq<string>)
    ensures WhenText(a + b) == WhenText(a) + WhenText(b)
  {
    if b == [] {
      assert a + b == a;
    } else {
      var k := |b| - 1;
      assert (a + b)[..|a + b| - 1] == a + b[..k] && (a + b)[|a + b| - 1] == b[k];
      WhenConcat(a, b[..k]);
      AppendWhen(WhenText(a), WhenText(b[..k]), "\nwhen { ", b[k], " }");
    }
  }

  lemma AppendWhen(a: string, b: string, c: string, d: string, e: string)
    ensures (a + b) + c + d + e == a + (b + c + d + e)
  {
  }

  lemma WhenFirst(conditions: seq<string>)
    requires conditions != []
    ensures WhenText(conditions) == ("\nwhen { " + conditions[0] + " }") + WhenText(conditions[1..])
  {
    var c := conditions[0];
    assert conditions == [c] + conditions[1..];
    WhenConcat([c], conditions[1..]);
    assert [c][..0] == [];
    assert WhenText([c]) == "" + "\nwhen { " + c + " }" == "\nwhen { " + c + " }";
  }

  lemma WhenIsRead(c: string, rest: string)
    requires '}' !in c
    ensures ReadWhen("\nwhen { " + c + " }" + rest) == Some((c, rest))
  {
    var text := " " + c + " ";
    var inner := text + (['}'] + rest);
    assert "\nwhen { " + c + " }" + rest == "\n" + ("when" + (" " + ("{" + inner)));
    NextWord("\n", "when", ["{"], " " + ("{" + inner));
    NextWord(" ", "{", [], inner);
    UntilIsRead(text, '}', rest);
    assert text[1..|text| - 1] == c;
  }

  predicate Braceless(conditions: seq<string>) { forall c :: c in conditions ==> '}' !in c }

  lemma {:induction false} WhensAreRead(conditions: seq<string>, rest: string)
    requires Braceless(conditions)
    ensures ReadWhens(WhenText(conditions) + (";" + rest)) == Some((conditions, rest))
    decreases |conditions|
  {
    if conditions == [] {
      WordIsRead("", ";", rest);
      assert "" + (";" + rest) == WhenText(conditions) + (";" + rest);
    } else {
      var others := WhenText(conditions[1..]) + (";" + rest);
      WhenFirst(conditions);
      assert WhenText(conditions) + (";" + rest) == "\nwhen { " + conditions[0] + " }" + others;
      WhenIsRead(conditions[0], others);
      WhensAreRead(conditions[1..], rest);
      assert conditions == [conditions[0]] + conditions[1..];
      WhenComesFirst(conditions[0], others);
    }
  }

  lemma WhenComesFirst(c: string, others: string)
    ensures Expect("\nwhen { " + c + " }" + others, ";") == None
  {
    var s := "\nwhen { " + c + " }" + others;
    assert s[0] == '\n' && s[1] == 'w' && s[1..][0] == 'w';
    assert Skip(s) == s[1..];
  }

  // Whole permits.

  predicate Readable(p: Permit) {
    && PlainEntity(p.principal) && PlainEntity(p.resource) && Braceless(p.conditions)
    && (p.actions.OneOf? ==> PlainList(p.actions.actions))
  }

  /** The texts between the words of a list of actions. */
  datatype Gaps = Gaps(before: string, between: string, after: string)

  predicate BlankGaps(g: Gaps) { Blank(g.before) && Blank(g.between) && Blank(g.after) }

  function ListText(actions: Actions, g: Gaps): string {
    match actions
    case AnyAction => ""
    case OneOf(names) => " in [" + (g.before + (Join(ActionTexts(names), "," + g.between) + (g.after + "]")))
  }

  /** A permit with any white space in its list of actions. */
  function LaidOut(p: Permit, g: Gaps, rest: string): string {
    "permit (\n    principal == " + (EntityText(p.principal)
      + (",\n    action" + (ListText(p.actions, g)
        + (",\n    resource in " + (EntityText(p.resource) + ("\n)" + (WhenText(p.conditions) + (";" + rest))))))))
  }

  lemma ActionPartIsRead(actions: Actions, g: Gaps, rest: string)
    requires BlankGaps(g) && (actions.OneOf? ==> PlainList(actions.actions)) && Expect(rest, ",").Some?
    ensures ReadAction(",\n    action" + (ListText(actions, g) + rest)) == Some((actions, rest))
  {
    match actions
    case AnyAction =>
      assert "" + rest == rest;
      AnyActionIsRead(rest);
    case OneOf(names) =>
      var joined := Join(ActionTexts(names), "," + g.between);
      ListRegroup(g.before, joined, g.after, rest);
      SomeActionsAreRead(names, g.before, g.between, g.after, rest);
  }

  lemma ListRegroup(before: string, joined: string, after: string, rest: string)
    ensures (" in [" + (before + (joined + (after + "]")))) + rest
         == " in [" + (before + (joined + (after + ("]" + rest))))
  {
  }

  lemma LaidOutIsRead(p: Permit, g: Gaps, rest: string)
    requires Readable(p) && BlankGaps(g)
    ensures ReadPermit(LaidOut(p, g, rest)) == Some((p, rest))
  {
    var s4 := WhenText(p.conditions) + (";" + rest);
    var s3 := ",\n    resource in " + (EntityText(p.resource) + ("\n)" + s4));
    var s2 := ",\n    action" + (ListText(p.actions, g) + s3);
    HeadIsRead(p.principal, s2);
    assert Expect(s3, ",").Some?;
    ActionPartIsRead(p.actions, g, s3);
    ResourceIsRead(p.resource, s4);
    WhensAreRead(p.conditions, rest);
  }
}
