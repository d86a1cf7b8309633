/**
  Template instantiation as real string rewriting (internal/cedar/store.go,
  resolveAttachmentPolicy): `?principal` is replaced everywhere, then `?resource`.
 */
module Templates {
  import opened Policies

  const PRINCIPAL := "?principal"
  const RESOURCE := "?resource"

  /** strings.ReplaceAll for a non-empty pattern: leftmost, non-overlapping, one pass. */
  function ReplaceAll(s: string, pattern: string, text: string): string
    requires pattern != ""
  {
    if s == "" then ""
    else if pattern <= s then text + ReplaceAll(s[|pattern|..], pattern, text)
    else [s[0]] + ReplaceAll(s[1..], pattern, text)
  }

  /** Two patterns replaced in one pass over `s`. */
  function Simultaneous(s: string, p1: string, t1: string, p2: string, t2: string): string
    requires p1 != "" && p2 != ""
  {
    if s == "" then ""
    else if p1 <= s then t1 + Simultaneous(s[|p1|..], p1, t1, p2, t2)
    else if p2 <= s then t2 + Simultaneous(s[|p2|..], p1, t1, p2, t2)
    else [s[0]] + Simultaneous(s[1..], p1, t1, p2, t2)
  }

  function PrincipalText(userID: string): string { EntityText(UserEntity(userID)) }

  function ResourceText(projectID: string): string { EntityText(ProjectEntity(projectID)) }

  /** The policy text the store produces for a template. */
  function Instantiate(template: string, userID: string, projectID: string): string {
    ReplaceAll(ReplaceAll(template, PRINCIPAL, PrincipalText(userID)), RESOURCE, ResourceText(projectID))
  }

  /** A replacement text: it holds no question mark and starts with an H. */
  predicate Inert(t: string) {
    '?' !in t && t != "" && t[0] == 'H'
  }

  /** The tail of a placeholder: text that neither starts a placeholder nor a replacement. */
  predicate Tail(t: string) {
    '?' !in t && 'H' !in t
  }

  /** Text without question marks is passed over. */
  lemma {:induction false} SkipInert(t: string, s: string, pattern: string, text: string)
    requires '?' !in t && pattern != "" && pattern[0] == '?'
    ensures ReplaceAll(t + s, pattern, text) == t + ReplaceAll(s, pattern, text)
  {
    if t == "" {
      assert t + s == s;
    } else {
      assert (t + s)[1..] == t[1..] + s && (t + s)[0] == t[0];
      SkipInert(t[1..], s, pattern, text);
      assert t == [t[0]] + t[1..];
    }
  }

  /** Replacing one placeholder neither creates nor destroys the tail of another. */
  lemma {:induction false} TailsStay(tail: string, s: string, pattern: string, text: string)
    requires Tail(tail) && Inert(text) && pattern != "" && pattern[0] == '?'
    ensures tail <= ReplaceAll(s, pattern, text) <==> tail <= s
  {
    if tail != "" && s != "" {
      if pattern <= s {
        assert ReplaceAll(s, pattern, text)[0] == 'H' && s[0] == '?';
      } else {
        TailsStay(tail[1..], s[1..], pattern, text);
        var r := ReplaceAll(s[1..], pattern, text);
        assert ([s[0]] + r)[1..] == r;
        assert tail == [tail[0]] + tail[1..] && s == [s[0]] + s[1..];
      }
    }
  }

  /** A placeholder: a question mark and a tail. */
  predicate Placeholder(p: string) {
    p != "" && p[0] == '?' && Tail(p[1..])
  }

  /** Neither pattern begins with the other. */
  predicate Distinct(p1: string, p2: string) {
    !(p1 <= p2) && !(p2 <= p1)
  }

  /** A tail at the front of `s` is passed over as a whole. */
  lemma {:induction false} ReplacedPrefix(tail: string, s: string, pattern: string, text: string)
    requires Tail(tail) && tail <= s && pattern != "" && pattern[0] == '?'
    ensures ReplaceAll(s, pattern, text) == tail + ReplaceAll(s[|tail|..], pattern, text)
  {
    SkipInert(tail, s[|tail|..], pattern, text);
    assert tail + s[|tail|..] == s;
  }

  /** Where `p1` does not start, its replacement leaves `p2` at the front if and only if it was. */
  lemma FrontStays(s: string, p1: string, t1: string, p2: string)
    requires Placeholder(p1) && Placeholder(p2) && Inert(t1) && s != "" && !(p1 <= s)
    ensures p2 <= ReplaceAll(s, p1, t1) <==> p2 <= s
    ensures p2 <= s ==> ReplaceAll(s, p1, t1)[|p2|..] == ReplaceAll(s[|p2|..], p1, t1)
    ensures ReplaceAll(s, p1, t1) != "" && ReplaceAll(s, p1, t1)[0] == s[0]
    ensures ReplaceAll(s, p1, t1)[1..] == ReplaceAll(s[1..], p1, t1)
  {
    var r := ReplaceAll(s[1..], p1, t1);
    assert ReplaceAll(s, p1, t1) == [s[0]] + r;
    TailsStay(p2[1..], s[1..], p1, t1);
    assert p2 == [p2[0]] + p2[1..] && s == [s[0]] + s[1..];
    if p2 <= s {
      ReplacedPrefix(p2[1..], s[1..], p1, t1);
      assert ([s[0]] + r)[|p2|..] == r[|p2| - 1..];
      assert s[|p2|..] == s[1..][|p2| - 1..];
    }
  }

  /** One replacement after the other is the same as both at once. */
  lemma {:induction false} SequentialIsSimultaneous(s: string, p1: string, t1: string, p2: string, t2: string)
    requires Placeholder(p1) && Placeholder(p2) && Distinct(p1, p2) && Inert(t1)
    ensures ReplaceAll(ReplaceAll(s, p1, t1), p2, t2) == Simultaneous(s, p1, t1, p2, t2)
  {
    if s == "" {
    } else if p1 <= s {
      SequentialIsSimultaneous(s[|p1|..], p1, t1, p2, t2);
      SkipInert(t1, ReplaceAll(s[|p1|..], p1, t1), p2, t2);
    } else {
      FrontStays(s, p1, t1, p2);
      SequentialIsSimultaneous(if p2 <= s then s[|p2|..] else s[1..], p1, t1, p2, t2);
    }
  }

  lemma {:induction false} SimultaneousCommutes(s: string, p1: string, t1: string, p2: string, t2: string)
    requires p1 != "" && p2 != "" && Distinct(p1, p2)
    ensures Simultaneous(s, p1, t1, p2, t2) == Simultaneous(s, p2, t2, p1, t1)
  {
    if s != "" {
      var n := if p1 <= s then |p1| else if p2 <= s then |p2| else 1;
      SimultaneousCommutes(s[n..], p1, t1, p2, t2);
    }
  }

  lemma ThePlaceholders()
    ensures Placeholder(PRINCIPAL) && Placeholder(RESOURCE) && Distinct(PRINCIPAL, RESOURCE)
  {
    assert PRINCIPAL[1] != RESOURCE[1];
  }

  lemma TheTexts(userID: string, projectID: string)
    requires '?' !in userID && '?' !in projectID
    ensures Inert(PrincipalText(userID)) && Inert(ResourceText(projectID))
  {
  }

  /** For ids without a question mark the store's two passes give the text of one
      simultaneous substitution, and so does the opposite order. */
  lemma InstantiateIsSimultaneous(template: string, userID: string, projectID: string)
    requires '?' !in userID && '?' !in projectID
    ensures Instantiate(template, userID, projectID)
         == Simultaneous(template, PRINCIPAL, PrincipalText(userID), RESOURCE, ResourceText(projectID))
         == ReplaceAll(ReplaceAll(template, RESOURCE, ResourceText(projectID)), PRINCIPAL, PrincipalText(userID))
  {
    var a, b := PrincipalText(userID), ResourceText(projectID);
    ThePlaceholders();
    TheTexts(userID, projectID);
    SequentialIsSimultaneous(template, PRINCIPAL, a, RESOURCE, b);
    SequentialIsSimultaneous(template, RESOURCE, b, PRINCIPAL, a);
    SimultaneousCommutes(template, PRINCIPAL, a, RESOURCE, b);
  }

  /** Every question mark of the template starts a placeholder. */
  predicate OnlyPlaceholders(s: string) {
    forall i :: 0 <= i < |s| && s[i] == '?' ==> PRINCIPAL <= s[i..] || RESOURCE <= s[i..]
  }

  lemma StepOver(s: string, n: nat)
    requires 0 < n <= |s| && '?' !in s[1..n]
    ensures OnlyPlaceholders(s) <==> (s[0] == '?' ==> PRINCIPAL <= s || RESOURCE <= s) && OnlyPlaceholders(s[n..])
  {
    assert s[0..] == s;
    if OnlyPlaceholders(s) {
      forall j | 0 <= j < |s| - n && s[n..][j] == '?'
        ensures PRINCIPAL <= s[n..][j..] || RESOURCE <= s[n..][j..]
      {
        assert s[n..][j..] == s[j + n..];
      }
    }
    if OnlyPlaceholders(s[n..]) {
      forall i | 1 <= i < |s| && s[i] == '?'
        ensures PRINCIPAL <= s[i..] || RESOURCE <= s[i..]
      {
        assert s[i..] == s[n..][i - n..];
      }
    }
  }

  lemma {:induction false} LeftoverQuestionMarks(s: string, a: string, b: string)
    requires Inert(a) && Inert(b)
    ensures '?' !in Simultaneous(s, PRINCIPAL, a, RESOURCE, b) <==> OnlyPlaceholders(s)
  {
    if s != "" {
      var n := if PRINCIPAL <= s then |PRINCIPAL| else if RESOURCE <= s then |RESOURCE| else 1;
      LeftoverQuestionMarks(s[n..], a, b);
      ThePlaceholders();
      var p := if PRINCIPAL <= s then PRINCIPAL else if RESOURCE <= s then RESOURCE else s[..1];
      assert p == s[..n] && s[1..n] == p[1..];
      StepOver(s, n);
    }
  }

  /** A policy produced for ids without question marks has none left -- in particular no
      placeholder -- if and only if the template's question marks all start placeholders. */
  lemma NoPlaceholderLeft(template: string, userID: string, projectID: string)
    requires '?' !in userID && '?' !in projectID
    ensures '?' !in Instantiate(template, userID, projectID) <==> OnlyPlaceholders(template)
  {
    InstantiateIsSimultaneous(template, userID, projectID);
    TheTexts(userID, projectID);
    LeftoverQuestionMarks(template, PrincipalText(userID), ResourceText(projectID));
  }
}
