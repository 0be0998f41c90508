/**
 Placeholders in tool arguments: the policy that admits a scenario, and the expansion that runs on what it
 admitted.

 Values are the trees a YAML document without aliases converts to, so no object is met twice and every
 member is a plain data property.
 */
module ArgumentExpansion {
  import opened Common
  import opened Strings

  datatype Json =
    | Null
    | Bool(b: bool)
    | Number(n: real)
    | NonFinite
    | Text(text: string)
    | Array(items: seq<Json>)
    | Object(members: seq<Member>)

  datatype Member = Member(key: string, value: Json)

  const MAX_NODES: nat := 10000
  const MAX_DEPTH: nat := 32
  const PLACEHOLDER_START := "${"
  const RUN_ID_PLACEHOLDER := "${run.id}"
  const FORBIDDEN_KEYS: set<string> := {"__proto__", "constructor", "prototype"}

  // ---------------------------------------------------------------- measures of a tree

  /** Number of values in the tree. */
  function Nodes(v: Json): nat
    decreases v, 1
  {
    match v
    case Array(items) => 1 + NodesOfItems(items)
    case Object(members) => 1 + NodesOfMembers(members)
    case _ => 1
  }

  function NodesOfItems(items: seq<Json>): nat
    decreases items, 0
  {
    if items == [] then 0 else Nodes(items[0]) + NodesOfItems(items[1..])
  }

  function NodesOfMembers(members: seq<Member>): nat
    decreases members, 0
  {
    if members == [] then 0 else Nodes(members[0].value) + NodesOfMembers(members[1..])
  }

  /** Every value lies at most `depth` levels below the root. */
  predicate Shallow(v: Json, depth: int)
    decreases v
  {
    && depth >= 0
    && match v
       case Array(items) => forall i :: 0 <= i < |items| ==> Shallow(items[i], depth - 1)
       case Object(members) => forall i :: 0 <= i < |members| ==> Shallow(members[i].value, depth - 1)
       case _ => true
  }

  predicate ForbiddenFree(v: Json)
    decreases v
  {
    match v
    case Array(items) => forall i :: 0 <= i < |items| ==> ForbiddenFree(items[i])
    case Object(members) =>
      forall i :: 0 <= i < |members| ==> members[i].key !in FORBIDDEN_KEYS && ForbiddenFree(members[i].value)
    case _ => true
  }

  predicate AllFinite(v: Json)
    decreases v
  {
    match v
    case NonFinite => false
    case Array(items) => forall i :: 0 <= i < |items| ==> AllFinite(items[i])
    case Object(members) => forall i :: 0 <= i < |members| ==> AllFinite(members[i].value)
    case _ => true
  }

  // ---------------------------------------------------------------- strings

  predicate IsAlphanumeric(c: char) {
    'A' <= c <= 'Z' || 'a' <= c <= 'z' || '0' <= c <= '9'
  }

  /** A letter or digit, then at most 127 letters, digits and the characters `.`, `_`, `:` and `-`. */
  predicate IsSafeRunId(runId: string) {
    && 1 <= |runId| <= 128
    && IsAlphanumeric(runId[0])
    && forall i :: 0 <= i < |runId| ==> IsAlphanumeric(runId[i]) || runId[i] in {'.', '_', ':', '-'}
  }

  // ---------------------------------------------------------------- reference definitions

  function Expanded(text: string, runId: string): string {
    ReplaceAll(text, RUN_ID_PLACEHOLDER, runId)
  }

  /** The tree with every string value expanded. */
  function Substitute(v: Json, runId: string): Json
    decreases v, 1
  {
    match v
    case Text(text) => Text(Expanded(text, runId))
    case Array(items) => Array(SubstituteItems(items, runId))
    case Object(members) => Object(SubstituteMembers(members, runId))
    case _ => v
  }

  function SubstituteItems(items: seq<Json>, runId: string): (r: seq<Json>)
    ensures |r| == |items|
    decreases items, 0
  {
    if items == [] then [] else [Substitute(items[0], runId)] + SubstituteItems(items[1..], runId)
  }

  function SubstituteMembers(members: seq<Member>, runId: string): (r: seq<Member>)
    ensures |r| == |members|
    decreases members, 0
  {
    if members == [] then []
    else [Member(members[0].key, Substitute(members[0].value, runId))] + SubstituteMembers(members[1..], runId)
  }

  /** Only string values may differ. */
  predicate SameShape(a: Json, b: Json)
    decreases a
  {
    match a
    case Text(_) => b.Text?
    case Array(items) =>
      b.Array? && |b.items| == |items| && forall i :: 0 <= i < |items| ==> SameShape(items[i], b.items[i])
    case Object(members) =>
      && b.Object? && |b.members| == |members|
      && forall i :: 0 <= i < |members| ==>
           b.members[i].key == members[i].key && SameShape(members[i].value, b.members[i].value)
    case _ => a == b
  }

  /** Every string value, and every key, satisfies the predicate. */
  predicate Everywhere(v: Json, key: string -> bool, text: string -> bool)
    decreases v
  {
    match v
    case Text(t) => text(t)
    case Array(items) => forall i :: 0 <= i < |items| ==> Everywhere(items[i], key, text)
    case Object(members) =>
      forall i :: 0 <= i < |members| ==> key(members[i].key) && Everywhere(members[i].value, key, text)
    case _ => true
  }

  predicate NoStart(s: string) {
    !Contains(s, PLACEHOLDER_START)
  }

  /** What the policy asks of a string value: nothing but run id placeholders. */
  predicate Allowed(text: string) {
    NoStart(ReplaceAll(text, RUN_ID_PLACEHOLDER, ""))
  }

  predicate PolicyClean(v: Json) {
    Everywhere(v, NoStart, Allowed)
  }

  predicate PlaceholderFree(v: Json) {
    Everywhere(v, NoStart, NoStart)
  }

  // ---------------------------------------------------------------- expansion of one string

  /** A dollar-free beginning neither holds nor completes a placeholder start. */
  lemma {:induction false} DollarFreePrefix(r: string, t: string)
    requires '$' !in r
    ensures Contains(r + t, PLACEHOLDER_START) <==> Contains(t, PLACEHOLDER_START)
  {
    if r == [] {
      assert r + t == t;
    } else {
      assert (r + t)[1..] == r[1..] + t;
      assert (r + t)[0] == r[0];
      DollarFreePrefix(r[1..], t);
    }
  }

  /** The first character of an expansion is the text's own, unless a run id stands there. */
  lemma ExpandedHead(text: string, replacement: string)
    ensures text != [] && !StartsWith(text, RUN_ID_PLACEHOLDER) ==>
              && ReplaceAll(text, RUN_ID_PLACEHOLDER, replacement)
                 == [text[0]] + ReplaceAll(text[1..], RUN_ID_PLACEHOLDER, replacement)
    ensures text != [] && StartsWith(text, RUN_ID_PLACEHOLDER) ==>
              ReplaceAll(text, RUN_ID_PLACEHOLDER, replacement)
              == replacement + ReplaceAll(text[|RUN_ID_PLACEHOLDER|..], RUN_ID_PLACEHOLDER, replacement)
  {
  }

  /** If a safe run id in place of the placeholders leaves a placeholder start, so does nothing in their place. */
  lemma {:induction false} ExpansionAddsNoStart(text: string, runId: string)
    requires IsSafeRunId(runId)
    requires Contains(Expanded(text, runId), PLACEHOLDER_START)
    ensures Contains(ReplaceAll(text, RUN_ID_PLACEHOLDER, ""), PLACEHOLDER_START)
    decreases |text|
  {
    ExpandedHead(text, runId);
    ExpandedHead(text, "");
    if StartsWith(text, RUN_ID_PLACEHOLDER) {
      var rest := text[|RUN_ID_PLACEHOLDER|..];
      DollarFreePrefix(runId, Expanded(rest, runId));
      ExpansionAddsNoStart(rest, runId);
      assert "" + ReplaceAll(rest, RUN_ID_PLACEHOLDER, "") == ReplaceAll(rest, RUN_ID_PLACEHOLDER, "");
    } else {
      var rest := text[1..];
      var e, r := Expanded(rest, runId), ReplaceAll(rest, RUN_ID_PLACEHOLDER, "");
      assert ([text[0]] + e)[1..] == e && ([text[0]] + r)[1..] == r;
      if Contains(e, PLACEHOLDER_START) {
        ExpansionAddsNoStart(rest, runId);
      } else {
        StartAcrossHead(text[0], rest, runId);
      }
    }
  }

  /** A start made of one kept character and what follows is there without the run id, too. */
  lemma StartAcrossHead(c: char, rest: string, runId: string)
    requires IsSafeRunId(runId)
    requires StartsWith([c] + Expanded(rest, runId), PLACEHOLDER_START)
    ensures StartsWith([c] + ReplaceAll(rest, RUN_ID_PLACEHOLDER, ""), PLACEHOLDER_START)
  {
    var e, r := Expanded(rest, runId), ReplaceAll(rest, RUN_ID_PLACEHOLDER, "");
    assert ([c] + e)[..2] == "${";
    assert ([c] + e)[0] == '$' && ([c] + e)[1] == '{';
    assert e[0] == '{';
    ExpandedHead(rest, runId);
    ExpandedHead(rest, "");
    assert r[0] == '{';
    assert ([c] + r)[..2] == "${";
  }

  /** What the policy allows expands to a text without placeholders. */
  lemma AllowedExpandsClean(text: string, runId: string)
    requires IsSafeRunId(runId) && Allowed(text)
    ensures NoStart(Expanded(text, runId))
  {
    if Contains(Expanded(text, runId), PLACEHOLDER_START) {
      ExpansionAddsNoStart(text, runId);
    }
  }

  /**
   What an expansion is: the text is made of pieces without placeholder and placeholders between them, and the run id
   stands in place of every placeholder and of nothing else.
   */
  ghost predicate Fills(text: string, expanded: string, runId: string) {
    exists pieces: seq<string> ::
      && pieces != [] && (forall i :: 0 <= i < |pieces| ==> !Contains(pieces[i], "${run.id}"))
      && text == Interleave(pieces, "${run.id}") && expanded == Interleave(pieces, runId)
  }

  /** The expansion of a text is the only text that fills it. */
  lemma ExpandedFills(text: string, runId: string, other: string)
    ensures Fills(text, other, runId) <==> other == Expanded(text, runId)
  {
    var pieces := PiecesOf(text, RUN_ID_PLACEHOLDER);
    ReplaceAllFills(pieces, RUN_ID_PLACEHOLDER, runId);
    forall pieces: seq<string> |
      && pieces != [] && (forall i :: 0 <= i < |pieces| ==> !Contains(pieces[i], "${run.id}"))
      && text == Interleave(pieces, "${run.id}")
      ensures Expanded(text, runId) == Interleave(pieces, runId)
    {
      ReplaceAllFills(pieces, RUN_ID_PLACEHOLDER, runId);
    }
  }

  /** The policy allows a text exactly if no placeholder start is left once the placeholders are taken out. */
  lemma AllowedExactly(text: string, rest: string)
    requires Fills(text, rest, "")
    ensures Allowed(text) <==> forall i: nat :: !OccursAt(rest, "${", i)
  {
    ExpandedFills(text, "", rest);
    ContainsWhatOccurs(rest, "${");
  }

  /** The run ids that are safe, by the ASCII codes of their characters. */
  lemma SafeRunIds(runId: string)
    ensures IsSafeRunId(runId)
            <==> && 0 < |runId| < 129
                 && (forall i :: 0 <= i < |runId| ==>
                       var code := runId[i] as int;
                       || 48 <= code < 58 || 65 <= code < 91 || 97 <= code < 123
                       || (i > 0 && code in {45, 46, 58, 95}))
  {
    if IsSafeRunId(runId) {
      assert forall i :: 0 <= i < |runId| ==> IsAlphanumeric(runId[i]) || runId[i] in {'.', '_', ':', '-'};
    } else if 0 < |runId| < 129 {
      assert !IsAlphanumeric(runId[0])
             || exists i :: 0 <= i < |runId| && !IsAlphanumeric(runId[i]) && runId[i] !in {'.', '_', ':', '-'};
    }
  }

  // ---------------------------------------------------------------- expansion of a tree

  lemma {:induction false} SubstituteAt(items: seq<Json>, members: seq<Member>, runId: string, i: nat)
    ensures i < |items| ==> SubstituteItems(items, runId)[i] == Substitute(items[i], runId)
    ensures i < |members| ==>
              SubstituteMembers(members, runId)[i] == Member(members[i].key, Substitute(members[i].value, runId))
  {
    if i > 0 {
      SubstituteAt(if items == [] then [] else items[1..], if members == [] then [] else members[1..], runId, i - 1);
    }
  }

  /** Expansion keeps the shape of every tree and leaves no placeholder in one the policy found clean. */
  lemma {:induction false} SubstituteIsSafe(v: Json, runId: string)
    requires IsSafeRunId(runId)
    ensures SameShape(v, Substitute(v, runId))
    ensures PolicyClean(v) ==> PlaceholderFree(Substitute(v, runId))
    decreases v
  {
    match v
    case Text(text) =>
      if Allowed(text) {
        AllowedExpandsClean(text, runId);
      }
    case Array(items) =>
      forall i | 0 <= i < |items|
        ensures SameShape(items[i], SubstituteItems(items, runId)[i])
        ensures PolicyClean(items[i]) ==> PlaceholderFree(SubstituteItems(items, runId)[i])
      {
        SubstituteAt(items, [], runId, i);
        SubstituteIsSafe(items[i], runId);
      }
    case Object(members) =>
      forall i | 0 <= i < |members|
        ensures SubstituteMembers(members, runId)[i].key == members[i].key
        ensures SameShape(members[i].value, SubstituteMembers(members, runId)[i].value)
        ensures PolicyClean(members[i].value) ==> PlaceholderFree(SubstituteMembers(members, runId)[i].value)
      {
        SubstituteAt([], members, runId, i);
        SubstituteIsSafe(members[i].value, runId);
      }
    case _ =>
  }

  // ---------------------------------------------------------------- the policy's list of issues

  datatype Segment = Key(key: string) | Index(index: nat)

  datatype Issue = UnsupportedPlaceholder(path: seq<Segment>) | PlaceholderInKey(path: seq<Segment>)

  function IssueOfText(text: string, path: seq<Segment>): Option<Issue> {
    if Allowed(text) then None else Some(UnsupportedPlaceholder(path))
  }

  function IssuesOf(v: Json, path: seq<Segment>): seq<Issue>
    decreases v, 1
  {
    match v
    case Text(text) => if IssueOfText(text, path).None? then [] else [IssueOfText(text, path).value]
    case Array(items) => IssuesOfItems(items, path, 0)
    case Object(members) => IssuesOfMembers(members, path)
    case _ => []
  }

  function IssuesOfItems(items: seq<Json>, path: seq<Segment>, from: nat): seq<Issue>
    decreases items, 0
  {
    if items == [] then [] else IssuesOf(items[0], path + [Index(from)]) + IssuesOfItems(items[1..], path, from + 1)
  }

  function IssuesOfMembers(members: seq<Member>, path: seq<Segment>): seq<Issue>
    decreases members, 0
  {
    if members == [] then []
    else
      (if NoStart(members[0].key) then [] else [PlaceholderInKey(path + [Key(members[0].key)])])
      + IssuesOf(members[0].value, path + [Key(members[0].key)])
      + IssuesOfMembers(members[1..], path)
  }

  /** There is no issue exactly when the tree is clean. */
  lemma {:induction false} NoIssuesMeansClean(v: Json, path: seq<Segment>)
    ensures IssuesOf(v, path) == [] <==> PolicyClean(v)
    decreases v, 1
  {
    match v
    case Array(items) => NoItemIssues(items, path, 0);
    case Object(members) => NoMemberIssues(members, path);
    case _ =>
  }

  lemma {:induction false} NoItemIssues(items: seq<Json>, path: seq<Segment>, from: nat)
    ensures IssuesOfItems(items, path, from) == [] <==> forall i :: 0 <= i < |items| ==> PolicyClean(items[i])
    decreases items, 0
  {
    hide PolicyClean, IssuesOf;
    if items != [] {
      NoIssuesMeansClean(items[0], path + [Index(from)]);
      NoItemIssues(items[1..], path, from + 1);
      assert forall i :: 0 < i < |items| ==> items[i] == items[1..][i - 1];
    }
  }

  lemma {:induction false} NoMemberIssues(members: seq<Member>, path: seq<Segment>)
    ensures IssuesOfMembers(members, path) == []
            <==> forall i :: 0 <= i < |members| ==> NoStart(members[i].key) && PolicyClean(members[i].value)
    decreases members, 0
  {
    hide PolicyClean, IssuesOf, NoStart, Contains;
    if members != [] {
      NoIssuesMeansClean(members[0].value, path + [Key(members[0].key)]);
      NoMemberIssues(members[1..], path);
      assert forall i :: 0 < i < |members| ==> members[i] == members[1..][i - 1];
    }
  }

  method ArgumentPlaceholderIssues(v: Json, path: seq<Segment>) returns (issues: seq<Issue>)
    ensures issues == IssuesOf(v, path)
    decreases v, 1
  {
    match v
    case Text(text) =>
      var issue := IssueOfText(text, path);
      issues := if issue.None? then [] else [issue.value];
    case Array(items) =>
      issues := ItemIssues(items, path);
    case Object(members) =>
      issues := MemberIssues(members, path);
    case _ =>
      issues := [];
  }

  method ItemIssues(items: seq<Json>, path: seq<Segment>) returns (issues: seq<Issue>)
    ensures issues == IssuesOfItems(items, path, 0)
    decreases items, 0
  {
    issues := [];
    for i := 0 to |items|
      invariant issues + IssuesOfItems(items[i..], path, i) == IssuesOfItems(items, path, 0)
    {
      assert items[i..][1..] == items[i + 1..];
      var more := ArgumentPlaceholderIssues(items[i], path + [Index(i)]);
      ghost var rest := IssuesOfItems(items[i + 1..], path, i + 1);
      assert issues + (more + rest) == (issues + more) + rest;
      issues := issues + more;
    }
  }

  lemma Regroup(a: seq<Issue>, b: seq<Issue>, c: seq<Issue>, d: seq<Issue>)
    ensures a + (b + c + d) == a + b + c + d
  {
  }

  method MemberIssues(members: seq<Member>, path: seq<Segment>) returns (issues: seq<Issue>)
    ensures issues == IssuesOfMembers(members, path)
    decreases members, 0
  {
    hide IssuesOf, Contains;
    issues := [];
    for i := 0 to |members|
      invariant issues + IssuesOfMembers(members[i..], path) == IssuesOfMembers(members, path)
    {
      assert members[i..][1..] == members[i + 1..];
      var memberPath := path + [Key(members[i].key)];
      var own := if Contains(members[i].key, PLACEHOLDER_START) then [PlaceholderInKey(memberPath)] else [];
      var more := ArgumentPlaceholderIssues(members[i].value, memberPath);
      Regroup(issues, own, more, IssuesOfMembers(members[i + 1..], path));
      issues := issues + own + more;
    }
  }

  // ---------------------------------------------------------------- the walk over a scenario

  datatype TreeFault = TooManyNodes | TooDeep | ForbiddenKey | NotANumber | NotAnObject | UnsafeRunId

  /** What the walk accepts. */
  predicate SafeTree(v: Json) {
    Nodes(v) <= MAX_NODES && Shallow(v, MAX_DEPTH) && ForbiddenFree(v)
  }

  class SafeValueVisitor {
    var nodes: nat

    constructor ()
      ensures nodes == 0
    {
      nodes := 0;
    }

    method Visit(v: Json, depth: nat) returns (fault: Option<TreeFault>)
      modifies this
      ensures fault.None? <==>
                old(nodes) + Nodes(v) <= MAX_NODES && Shallow(v, MAX_DEPTH - depth) && ForbiddenFree(v)
      ensures fault.None? ==> nodes == old(nodes) + Nodes(v)
      decreases v
    {
      nodes := nodes + 1;
      if nodes > MAX_NODES {
        return Some(TooManyNodes);
      }
      if depth > MAX_DEPTH {
        return Some(TooDeep);
      }
      match v
      case Array(items) =>
        for i := 0 to |items|
          invariant nodes + NodesOfItems(items[i..]) == old(nodes) + Nodes(v)
          invariant nodes <= MAX_NODES
          invariant forall j :: 0 <= j < i ==> Shallow(items[j], MAX_DEPTH - depth - 1) && ForbiddenFree(items[j])
        {
          assert items[i..][1..] == items[i + 1..];
          fault := Visit(items[i], depth + 1);
          if fault.Some? {
            return;
          }
        }
        fault := None;
      case Object(members) =>
        for i := 0 to |members|
          invariant nodes + NodesOfMembers(members[i..]) == old(nodes) + Nodes(v)
          invariant nodes <= MAX_NODES
          invariant forall j :: 0 <= j < i ==>
                      && members[j].key !in FORBIDDEN_KEYS
                      && Shallow(members[j].value, MAX_DEPTH - depth - 1) && ForbiddenFree(members[j].value)
        {
          assert members[i..][1..] == members[i + 1..];
          if members[i].key in FORBIDDEN_KEYS {
            return Some(ForbiddenKey);
          }
          fault := Visit(members[i].value, depth + 1);
          if fault.Some? {
            return;
          }
        }
        fault := None;
      case _ =>
        fault := None;
    }
  }

  method AssertSafeValueTree(v: Json) returns (fault: Option<TreeFault>)
    ensures fault.None? <==> SafeTree(v)
  {
    var visitor := new SafeValueVisitor();
    fault := visitor.Visit(v, 0);
  }

  // ---------------------------------------------------------------- the expansion of a run

  /** What the expansion succeeds on. */
  predicate Expandable(v: Json) {
    SafeTree(v) && AllFinite(v)
  }

  class ExpansionState {
    var nodes: nat
    const runId: string

    constructor (runId: string)
      ensures nodes == 0 && this.runId == runId
    {
      nodes := 0;
      this.runId := runId;
    }

    method ExpandValue(v: Json, depth: nat) returns (r: Result<Json, TreeFault>)
      modifies this
      ensures r.Success? <==>
                && old(nodes) + Nodes(v) <= MAX_NODES && Shallow(v, MAX_DEPTH - depth)
                && ForbiddenFree(v) && AllFinite(v)
      ensures r.Success? ==> r.value == Substitute(v, runId) && nodes == old(nodes) + Nodes(v)
      decreases v
    {
      nodes := nodes + 1;
      if nodes > MAX_NODES {
        return Failure(TooManyNodes);
      }
      if depth > MAX_DEPTH {
        return Failure(TooDeep);
      }
      match v
      case Text(text) =>
        r := Success(Text(ReplaceAll(text, RUN_ID_PLACEHOLDER, runId)));
      case NonFinite =>
        r := Failure(NotANumber);
      case Array(items) =>
        r := ExpandItems(v, items, depth);
      case Object(members) =>
        r := ExpandMembers(v, members, depth);
      case _ =>
        r := Success(v);
    }

    method ExpandItems(v: Json, items: seq<Json>, depth: nat) returns (r: Result<Json, TreeFault>)
      requires v == Array(items) && nodes <= MAX_NODES
      modifies this
      ensures r.Success? <==>
                && old(nodes) + NodesOfItems(items) <= MAX_NODES
                && forall i :: 0 <= i < |items| ==>
                     Shallow(items[i], MAX_DEPTH - depth - 1) && ForbiddenFree(items[i]) && AllFinite(items[i])
      ensures r.Success? ==> r.value == Substitute(v, runId) && nodes == old(nodes) + NodesOfItems(items)
      decreases items
    {
      var expanded: seq<Json> := [];
      for i := 0 to |items|
        invariant nodes + NodesOfItems(items[i..]) == old(nodes) + NodesOfItems(items)
        invariant nodes <= MAX_NODES
        invariant expanded + SubstituteItems(items[i..], runId) == SubstituteItems(items, runId)
        invariant forall j :: 0 <= j < i ==>
                    Shallow(items[j], MAX_DEPTH - depth - 1) && ForbiddenFree(items[j]) && AllFinite(items[j])
      {
        assert items[i..][1..] == items[i + 1..];
        var entry := ExpandValue(items[i], depth + 1);
        if entry.Failure? {
          return entry;
        }
        expanded := expanded + [entry.value];
      }
      r := Success(Array(expanded));
    }

    method ExpandMembers(v: Json, members: seq<Member>, depth: nat) returns (r: Result<Json, TreeFault>)
      requires v == Object(members) && nodes <= MAX_NODES
      modifies this
      ensures r.Success? <==>
                && old(nodes) + NodesOfMembers(members) <= MAX_NODES
                && forall i :: 0 <= i < |members| ==>
                     && members[i].key !in FORBIDDEN_KEYS && Shallow(members[i].value, MAX_DEPTH - depth - 1)
                     && ForbiddenFree(members[i].value) && AllFinite(members[i].value)
      ensures r.Success? ==> r.value == Substitute(v, runId) && nodes == old(nodes) + NodesOfMembers(members)
      decreases members
    {
      var expanded: seq<Member> := [];
      for i := 0 to |members|
        invariant nodes + NodesOfMembers(members[i..]) == old(nodes) + NodesOfMembers(members)
        invariant nodes <= MAX_NODES
        invariant expanded + SubstituteMembers(members[i..], runId) == SubstituteMembers(members, runId)
        invariant forall j :: 0 <= j < i ==>
                    && members[j].key !in FORBIDDEN_KEYS && Shallow(members[j].value, MAX_DEPTH - depth - 1)
                    && ForbiddenFree(members[j].value) && AllFinite(members[j].value)
      {
        assert members[i..][1..] == members[i + 1..];
        if members[i].key in FORBIDDEN_KEYS {
          return Failure(ForbiddenKey);
        }
        var entry := ExpandValue(members[i].value, depth + 1);
        if entry.Failure? {
          return entry;
        }
        expanded := expanded + [Member(members[i].key, entry.value)];
      }
      r := Success(Object(expanded));
    }
  }

  /** Arguments of a call are an object whose tree can be expanded. */
  predicate ExpandableArguments(arguments: Json) {
    Expandable(arguments) && arguments.Object?
  }

  method ExpandRunArguments(arguments: Json, runId: string) returns (r: Result<Json, TreeFault>)
    ensures r.Success? <==> IsSafeRunId(runId) && ExpandableArguments(arguments)
    ensures r.Success? ==> r.value == Substitute(arguments, runId)
  {
    if !IsSafeRunId(runId) {
      return Failure(UnsafeRunId);
    }
    var state := new ExpansionState(runId);
    r := state.ExpandValue(arguments, 0);
    if r.Success? && !r.value.Object? {
      return Failure(NotAnObject);
    }
  }

  datatype Invocation = Invocation(tool: string, arguments: Json)

  datatype InvocationSet = InvocationSet(exercise: Invocation, probe: Invocation, reset: Invocation)

  datatype ExpandedRun = ExpandedRun(invocations: InvocationSet, runId: string)

  predicate ExpandableSet(set_: InvocationSet) {
    && ExpandableArguments(set_.exercise.arguments)
    && ExpandableArguments(set_.probe.arguments)
    && ExpandableArguments(set_.reset.arguments)
  }

  function SubstituteInvocation(invocation: Invocation, runId: string): Invocation {
    invocation.(arguments := Substitute(invocation.arguments, runId))
  }

  method ExpandInvocation(invocation: Invocation, runId: string) returns (r: Result<Invocation, TreeFault>)
    ensures r.Success? <==> IsSafeRunId(runId) && ExpandableArguments(invocation.arguments)
    ensures r.Success? ==> r.value == SubstituteInvocation(invocation, runId)
  {
    var arguments := ExpandRunArguments(invocation.arguments, runId);
    if arguments.Failure? {
      return Failure(arguments.error);
    }
    r := Success(invocation.(arguments := arguments.value));
  }

  method ExpandRun(invocations: InvocationSet, runId: string) returns (r: Result<ExpandedRun, TreeFault>)
    ensures r.Success? <==> IsSafeRunId(runId) && ExpandableSet(invocations)
    ensures r.Success? ==>
              r.value == ExpandedRun(InvocationSet(SubstituteInvocation(invocations.exercise, runId),
                                                   SubstituteInvocation(invocations.probe, runId),
                                                   SubstituteInvocation(invocations.reset, runId)), runId)
  {
    if !IsSafeRunId(runId) {
      return Failure(UnsafeRunId);
    }
    var exercise :- ExpandInvocation(invocations.exercise, runId);
    var probe :- ExpandInvocation(invocations.probe, runId);
    var reset :- ExpandInvocation(invocations.reset, runId);
    r := Success(ExpandedRun(InvocationSet(exercise, probe, reset), runId));
  }

  // ---------------------------------------------------------------- trees, value by value

  /** The value v stands in the tree at the end of the path of keys and positions. */
  ghost predicate Reaches(tree: Json, path: seq<Segment>, v: Json)
    decreases |path|
  {
    if path == [] then v == tree
    else match path[0]
      case Index(i) => tree.Array? && i < |tree.items| && Reaches(tree.items[i], path[1..], v)
      case Key(key) =>
        && tree.Object?
        && exists i :: 0 <= i < |tree.members| && tree.members[i].key == key
                       && Reaches(tree.members[i].value, path[1..], v)
  }

  /** What the walks refuse in a value, by the path it stands at. */
  ghost predicate Harmless(path: seq<Segment>, v: Json, depth: int, finite: bool) {
    && |path| <= depth
    && Key("__proto__") !in path && Key("constructor") !in path && Key("prototype") !in path
    && (finite ==> !v.NonFinite?)
  }

  lemma {:induction false} ReachedIsHarmless(tree: Json, depth: int, finite: bool, path: seq<Segment>, v: Json)
    requires Shallow(tree, depth) && ForbiddenFree(tree) && (finite ==> AllFinite(tree)) && Reaches(tree, path, v)
    ensures Harmless(path, v, depth, finite)
    decreases |path|
  {
    if path != [] {
      match path[0]
      case Index(i) => ReachedIsHarmless(tree.items[i], depth - 1, finite, path[1..], v);
      case Key(key) =>
        var i :| 0 <= i < |tree.members| && tree.members[i].key == key
                 && Reaches(tree.members[i].value, path[1..], v);
        ReachedIsHarmless(tree.members[i].value, depth - 1, finite, path[1..], v);
    }
  }

  lemma ReachesInto(tree: Json, step: Segment, child: Json, path: seq<Segment>, v: Json)
    requires Reaches(tree, [step], child) && Reaches(child, path, v)
    ensures Reaches(tree, [step] + path, v)
  {
    assert ([step] + path)[1..] == path && [step][1..] == [];
  }

  /** A tree that the walks refuse holds a value they refuse it for. */
  lemma {:induction false} HarmfulIsReached(tree: Json, depth: int, finite: bool)
    returns (path: seq<Segment>, v: Json)
    requires !(Shallow(tree, depth) && ForbiddenFree(tree) && (finite ==> AllFinite(tree)))
    ensures Reaches(tree, path, v) && !Harmless(path, v, depth, finite)
    decreases tree
  {
    path, v := [], tree;
    if depth >= 0 && !(finite && tree.NonFinite?) {
      match tree
      case Array(items) =>
        var i :| 0 <= i < |items| && !(Shallow(items[i], depth - 1) && ForbiddenFree(items[i])
                                       && (finite ==> AllFinite(items[i])));
        var rest, w := HarmfulIsReached(items[i], depth - 1, finite);
        assert [Index(i)][1..] == [];
        ReachesInto(tree, Index(i), items[i], rest, w);
        path, v := [Index(i)] + rest, w;
      case Object(members) =>
        var i :| 0 <= i < |members| && !(members[i].key !in FORBIDDEN_KEYS
                                         && Shallow(members[i].value, depth - 1) && ForbiddenFree(members[i].value)
                                         && (finite ==> AllFinite(members[i].value)));
        assert [Key(members[i].key)][1..] == [];
        if members[i].key in FORBIDDEN_KEYS {
          path, v := [Key(members[i].key)], members[i].value;
          assert Reaches(members[i].value, [], members[i].value);
        } else {
          var rest, w := HarmfulIsReached(members[i].value, depth - 1, finite);
          assert Reaches(members[i].value, [], members[i].value);
          ReachesInto(tree, Key(members[i].key), members[i].value, rest, w);
          path, v := [Key(members[i].key)] + rest, w;
        }
    }
  }

  /**
   What the two walks accept, value by value: nothing lies too deep or below a forbidden key, and for the expansion
   every number is finite.  How many values there may be is counted.
   */
  lemma AcceptedTrees(tree: Json)
    ensures SafeTree(tree)
            <==> Nodes(tree) <= 10000 && forall path, v :: Reaches(tree, path, v) ==> Harmless(path, v, 32, false)
    ensures Expandable(tree)
            <==> Nodes(tree) <= 10000 && forall path, v :: Reaches(tree, path, v) ==> Harmless(path, v, 32, true)
  {
    forall path, v, finite: bool |
      Reaches(tree, path, v) && Shallow(tree, 32) && ForbiddenFree(tree) && (finite ==> AllFinite(tree))
      ensures Harmless(path, v, 32, finite)
    {
      ReachedIsHarmless(tree, 32, finite, path, v);
    }
    if !(Shallow(tree, 32) && ForbiddenFree(tree)) {
      var path, v := HarmfulIsReached(tree, 32, false);
    }
    if !(Shallow(tree, 32) && ForbiddenFree(tree) && AllFinite(tree)) {
      var path, v := HarmfulIsReached(tree, 32, true);
    }
  }

  /** Expansion, value by value: texts are filled with the run id, everything else stays where and what it is. */
  lemma {:induction false} SubstituteReaches(tree: Json, path: seq<Segment>, v: Json, runId: string)
    requires Reaches(tree, path, v)
    ensures var w := Substitute(v, runId);
            && Reaches(Substitute(tree, runId), path, w)
            && (v.Text? ==> w.Text? && Fills(v.text, w.text, runId))
            && (v.Array? ==> w.Array? && |w.items| == |v.items|)
            && (v.Object? ==>
                  && w.Object? && |w.members| == |v.members|
                  && forall i :: 0 <= i < |v.members| ==> w.members[i].key == v.members[i].key)
            && (!v.Text? && !v.Array? && !v.Object? ==> w == v)
    decreases |path|
  {
    if path == [] {
      if v.Text? {
        ExpandedFills(v.text, runId, Expanded(v.text, runId));
      } else if v.Object? {
        forall i | 0 <= i < |v.members|
          ensures SubstituteMembers(v.members, runId)[i].key == v.members[i].key
        {
          SubstituteAt([], v.members, runId, i);
        }
      }
    } else {
      match path[0]
      case Index(i) =>
        SubstituteAt(tree.items, [], runId, i);
        SubstituteReaches(tree.items[i], path[1..], v, runId);
      case Key(key) =>
        var i :| 0 <= i < |tree.members| && tree.members[i].key == key
                 && Reaches(tree.members[i].value, path[1..], v);
        SubstituteAt([], tree.members, runId, i);
        SubstituteReaches(tree.members[i].value, path[1..], v, runId);
    }
  }

  // ---------------------------------------------------------------- issues, value by value

  /** A text that the policy does not allow stands at the end of the path. */
  ghost predicate BadTextAt(v: Json, path: seq<Segment>) {
    exists text :: Reaches(v, path, Text(text)) && !Allowed(text)
  }

  /** The path leads to something, by a last key that holds a placeholder start. */
  ghost predicate BadKeyAt(v: Json, path: seq<Segment>) {
    && path != [] && path[|path| - 1].Key? && Contains(path[|path| - 1].key, "${")
    && exists w :: Reaches(v, path, w)
  }

  lemma {:induction false} IssuesLieBelow(v: Json, path: seq<Segment>, issue: Issue)
    ensures issue in IssuesOf(v, path) ==> path <= issue.path
    decreases v, 1
  {
    match v
    case Array(items) => ItemIssuesLieBelow(items, path, 0, issue);
    case Object(members) => MemberIssuesLieBelow(members, path, issue);
    case _ =>
  }

  lemma {:induction false} ItemIssuesLieBelow(items: seq<Json>, path: seq<Segment>, from: nat, issue: Issue)
    ensures issue in IssuesOfItems(items, path, from) ==> path <= issue.path
    decreases items, 0
  {
    hide IssuesOf;
    if items != [] {
      IssuesLieBelow(items[0], path + [Index(from)], issue);
      ItemIssuesLieBelow(items[1..], path, from + 1, issue);
    }
  }

  lemma {:induction false} MemberIssuesLieBelow(members: seq<Member>, path: seq<Segment>, issue: Issue)
    ensures issue in IssuesOfMembers(members, path) ==> path <= issue.path
    decreases members, 0
  {
    hide IssuesOf, NoStart;
    if members != [] {
      IssuesLieBelow(members[0].value, path + [Key(members[0].key)], issue);
      MemberIssuesLieBelow(members[1..], path, issue);
    }
  }

  /** The issues of one child, told apart from those of its siblings by the step that leads to it. */
  lemma {:induction false} ChildIssues(v: Json, path: seq<Segment>, step: Segment, below: seq<Segment>)
    ensures UnsupportedPlaceholder(path + below) in IssuesOf(v, path + [step])
            <==> below != [] && below[0] == step && BadTextAt(v, below[1..])
    ensures PlaceholderInKey(path + below) in IssuesOf(v, path + [step])
            <==> below != [] && below[0] == step && BadKeyAt(v, below[1..])
    decreases v, 2
  {
    hide IssuesOf, BadTextAt, BadKeyAt;
    IssuesLieBelow(v, path + [step], UnsupportedPlaceholder(path + below));
    IssuesLieBelow(v, path + [step], PlaceholderInKey(path + below));
    if below != [] && below[0] == step {
      assert path + below == path + [step] + below[1..];
      IssuesAreExact(v, path + [step], below[1..]);
    } else {
      assert below != [] ==> (path + below)[|path|] == below[0];
    }
  }

  lemma {:induction false} ItemIssuesAreExact(items: seq<Json>, path: seq<Segment>, from: nat, below: seq<Segment>)
    ensures UnsupportedPlaceholder(path + below) in IssuesOfItems(items, path, from)
            <==> && below != [] && below[0].Index? && from <= below[0].index < from + |items|
                 && BadTextAt(items[below[0].index - from], below[1..])
    ensures PlaceholderInKey(path + below) in IssuesOfItems(items, path, from)
            <==> && below != [] && below[0].Index? && from <= below[0].index < from + |items|
                 && BadKeyAt(items[below[0].index - from], below[1..])
    decreases items, 0
  {
    hide IssuesOf, BadTextAt, BadKeyAt;
    if items != [] {
      ChildIssues(items[0], path, Index(from), below);
      ItemIssuesAreExact(items[1..], path, from + 1, below);
    }
  }

  ghost predicate BadMemberText(members: seq<Member>, key: string, below: seq<Segment>) {
    exists i :: 0 <= i < |members| && members[i].key == key && BadTextAt(members[i].value, below)
  }

  ghost predicate BadMemberKey(members: seq<Member>, key: string, below: seq<Segment>) {
    exists i :: 0 <= i < |members| && members[i].key == key
                && ((below == [] && !NoStart(key)) || BadKeyAt(members[i].value, below))
  }

  lemma {:induction false} MemberIssuesAreExact(members: seq<Member>, path: seq<Segment>, below: seq<Segment>)
    ensures UnsupportedPlaceholder(path + below) in IssuesOfMembers(members, path)
            <==> below != [] && below[0].Key? && BadMemberText(members, below[0].key, below[1..])
    ensures PlaceholderInKey(path + below) in IssuesOfMembers(members, path)
            <==> below != [] && below[0].Key? && BadMemberKey(members, below[0].key, below[1..])
    decreases members, 0
  {
    hide IssuesOf, BadTextAt, BadKeyAt, NoStart;
    if members != [] {
      var key := members[0].key;
      ChildIssues(members[0].value, path, Key(key), below);
      MemberIssuesAreExact(members[1..], path, below);
      assert forall i :: 0 < i < |members| ==> members[i] == members[1..][i - 1];
      assert path + below == path + [Key(key)] <==> below == [Key(key)] by {
        assert path + below == path + [Key(key)] ==> (path + below)[|path|..] == below;
        assert (path + [Key(key)])[|path|..] == [Key(key)];
      }
    }
  }

  lemma BadInItems(items: seq<Json>, below: seq<Segment>)
    ensures BadTextAt(Array(items), below)
            <==> below != [] && below[0].Index? && below[0].index < |items|
                 && BadTextAt(items[below[0].index], below[1..])
    ensures BadKeyAt(Array(items), below)
            <==> below != [] && below[0].Index? && below[0].index < |items|
                 && BadKeyAt(items[below[0].index], below[1..])
  {
    if below != [] && below[0].Index? && below[0].index < |items| {
      LastOfRest(below);
      forall w
        ensures Reaches(Array(items), below, w) <==> Reaches(items[below[0].index], below[1..], w)
      {
      }
    }
  }

  lemma LastOfRest(below: seq<Segment>)
    requires below != []
    ensures |below| > 1 ==> below[1..][|below[1..]| - 1] == below[|below| - 1]
  {
  }

  lemma BadKeyOfMember(members: seq<Member>, below: seq<Segment>)
    requires |below| == 1 && below[0].Key?
    ensures BadKeyAt(Object(members), below) <==> BadMemberKey(members, below[0].key, below[1..])
  {
    var key := below[0].key;
    if BadMemberKey(members, key, below[1..]) {
      var i :| 0 <= i < |members| && members[i].key == key;
      assert Reaches(members[i].value, below[1..], members[i].value);
      assert Reaches(Object(members), below, members[i].value);
    }
  }

  lemma BadKeyBelowMember(members: seq<Member>, below: seq<Segment>)
    requires |below| > 1 && below[0].Key?
    ensures BadKeyAt(Object(members), below) <==> BadMemberKey(members, below[0].key, below[1..])
  {
    LastOfRest(below);
    if BadKeyAt(Object(members), below) {
      var w :| Reaches(Object(members), below, w);
      var i :| 0 <= i < |members| && members[i].key == below[0].key && Reaches(members[i].value, below[1..], w);
      assert BadKeyAt(members[i].value, below[1..]);
    }
    if BadMemberKey(members, below[0].key, below[1..]) {
      var i :| 0 <= i < |members| && members[i].key == below[0].key && BadKeyAt(members[i].value, below[1..]);
      var w :| Reaches(members[i].value, below[1..], w);
      assert Reaches(Object(members), below, w);
    }
  }

  lemma BadInMembers(members: seq<Member>, below: seq<Segment>)
    ensures BadTextAt(Object(members), below)
            <==> below != [] && below[0].Key? && BadMemberText(members, below[0].key, below[1..])
    ensures BadKeyAt(Object(members), below)
            <==> below != [] && below[0].Key? && BadMemberKey(members, below[0].key, below[1..])
  {
    if below != [] && below[0].Key? {
      LastOfRest(below);
      forall w
        ensures Reaches(Object(members), below, w)
                <==> exists i :: 0 <= i < |members| && members[i].key == below[0].key
                                 && Reaches(members[i].value, below[1..], w)
      {
      }
      if |below| == 1 {
        BadKeyOfMember(members, below);
      } else {
        BadKeyBelowMember(members, below);
      }
    }
  }

  /** The list of issues is exact: each text that is not allowed, and each key with a placeholder start, by its path. */
  lemma {:induction false} IssuesAreExact(v: Json, path: seq<Segment>, below: seq<Segment>)
    ensures UnsupportedPlaceholder(path + below) in IssuesOf(v, path) <==> BadTextAt(v, below)
    ensures PlaceholderInKey(path + below) in IssuesOf(v, path) <==> BadKeyAt(v, below)
    decreases v, 1
  {
    match v
    case Text(text) =>
      assert path + below == path <==> below == [];
      if below == [] {
        assert Reaches(v, below, Text(text));
      }
    case Array(items) =>
      hide BadTextAt, BadKeyAt;
      ItemIssuesAreExact(items, path, 0, below);
      BadInItems(items, below);
    case Object(members) =>
      hide BadTextAt, BadKeyAt;
      MemberIssuesAreExact(members, path, below);
      BadInMembers(members, below);
    case _ =>
  }

  // ---------------------------------------------------------------- validation implies safe expansion

  /** v is the tree itself or lies below it. */
  ghost predicate Within(tree: Json, v: Json)
    decreases tree
  {
    || v == tree
    || match tree
       case Array(items) => exists i :: 0 <= i < |items| && Within(items[i], v)
       case Object(members) => exists i :: 0 <= i < |members| && Within(members[i].value, v)
       case _ => false
  }

  lemma {:induction false} ShallowDeeper(v: Json, a: int, b: int)
    requires Shallow(v, a) && a <= b
    ensures Shallow(v, b)
    decreases v
  {
    match v
    case Array(items) =>
      forall i | 0 <= i < |items|
        ensures Shallow(items[i], b - 1)
      {
        ShallowDeeper(items[i], a - 1, b - 1);
      }
    case Object(members) =>
      forall i | 0 <= i < |members|
        ensures Shallow(members[i].value, b - 1)
      {
        ShallowDeeper(members[i].value, a - 1, b - 1);
      }
    case _ =>
  }

  lemma {:induction false} NodesOfChild(items: seq<Json>, members: seq<Member>, i: nat)
    ensures i < |items| ==> Nodes(items[i]) <= NodesOfItems(items)
    ensures i < |members| ==> Nodes(members[i].value) <= NodesOfMembers(members)
  {
    if i > 0 {
      NodesOfChild(if items == [] then [] else items[1..], if members == [] then [] else members[1..], i - 1);
    }
  }

  /** Whatever lies in a safe tree is a safe tree. */
  lemma {:induction false} SafeBelow(tree: Json, v: Json, depth: nat)
    requires Within(tree, v) && Shallow(tree, depth) && ForbiddenFree(tree)
    ensures Nodes(v) <= Nodes(tree) && Shallow(v, depth) && ForbiddenFree(v)
    decreases tree
  {
    if v != tree {
      match tree
      case Array(items) =>
        var i :| 0 <= i < |items| && Within(items[i], v);
        NodesOfChild(items, [], i);
        SafeBelow(items[i], v, depth - 1);
        ShallowDeeper(v, depth - 1, depth);
      case Object(members) =>
        var i :| 0 <= i < |members| && Within(members[i].value, v);
        NodesOfChild([], members, i);
        SafeBelow(members[i].value, v, depth - 1);
        ShallowDeeper(v, depth - 1, depth);
    }
  }

  /**
   Arguments inside an accepted scenario tree and without policy issues expand for every safe run id, if and
   only if they are an object and all their numbers are finite; the result has the same shape and holds no
   placeholder start.
   */
  lemma ValidatedArgumentsExpand(scenario: Json, arguments: Json, path: seq<Segment>, runId: string)
    requires SafeTree(scenario) && Within(scenario, arguments) && IssuesOf(arguments, path) == []
    requires IsSafeRunId(runId)
    ensures ExpandableArguments(arguments) <==> arguments.Object? && AllFinite(arguments)
    ensures SameShape(arguments, Substitute(arguments, runId)) && PlaceholderFree(Substitute(arguments, runId))
  {
    SafeBelow(scenario, arguments, MAX_DEPTH);
    NoIssuesMeansClean(arguments, path);
    SubstituteIsSafe(arguments, runId);
  }

  /** The walk and the policy alone do not exclude a number the expansion refuses; the schema must. */
  lemma NonFiniteIsNotCaught(runId: string)
    ensures var v := Object([Member("n", NonFinite)]);
            SafeTree(v) && IssuesOf(v, []) == [] && !Expandable(v)
  {
    var v := Object([Member("n", NonFinite)]);
    assert NodesOfMembers([Member("n", NonFinite)]) == 1;
    NoIssuesMeansClean(v, []);
  }
}
