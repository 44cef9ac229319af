/**
 * The confirmation-identity footer of backend/src/app/agents/confirmation_identity.py: its printer, the
 * grammar its regular expression describes, and the scan for the last block.
 */
module ConfirmationIdentity {
  import opened Options
  import opened Utf8

  const BEGIN: string := "--- confirmation identity ---"
  const END: string := "--- end confirmation identity ---"
  const REPLY: string := "Reply \"I confirm\" to accept " + "this exact proposal. "
  const NOTICE: string := "A newer draft requires " + "a new explicit confirmation."
  const TRAILER: string := REPLY + NOTICE

  // --- characters

  /** The case-insensitive matching class of a character: ASCII letters and the four non-ASCII variants. */
  function Fold(c: char): char {
    if 'A' <= c <= 'Z' then (c as int + 32) as char
    else if c == '\U{130}' || c == '\U{131}' then 'i'
    else if c == '\U{17F}' then 's'
    else if c == '\U{212A}' then 'k'
    else c
  }

  function Lower(s: string): string {
    seq(|s|, i requires 0 <= i < |s| => Fold(s[i]))
  }

  predicate Hex(c: char) {
    '0' <= c <= '9' || 'a' <= Fold(c) <= 'f'
  }

  predicate Dash(i: nat) {
    i == 8 || i == 13 || i == 18 || i == 23
  }

  predicate IsUuid(s: string) {
    |s| == 36 && forall i :: 0 <= i < 36 ==> if Dash(i) then s[i] == '-' else Hex(s[i])
  }

  predicate IsHash(s: string) {
    |s| == 64 && forall i :: 0 <= i < 64 ==> Hex(s[i])
  }

  // --- the pattern

  datatype Elem = Lit(text: string) | Ws | Uuid | Hash | OptionalUuid

  /** The text equals the lower-case literal up to case. */
  predicate Folds(text: string, literal: string) {
    |text| == |literal| && forall i :: 0 <= i < |literal| ==> Fold(text[i]) == literal[i]
  }

  const NONE: string := "none"

  /** What an element accepts when it is not white space. */
  predicate Accepts(e: Elem, text: string) {
    match e
    case Lit(t) => Folds(text, t)
    case Ws => false
    case Uuid => IsUuid(text)
    case Hash => IsHash(text)
    case OptionalUuid => Folds(text, NONE) || IsUuid(text)
  }

  /** How many characters an element takes at a position, if it matches there. */
  function Take(e: Elem, s: string, i: nat): Option<nat> {
    match e
    case Lit(t) => if i + |t| <= |s| && Accepts(e, s[i..i + |t|]) then Some(|t|) else None
    case Ws => Some(0)
    case Uuid => if i + 36 <= |s| && Accepts(e, s[i..i + 36]) then Some(36) else None
    case Hash => if i + 64 <= |s| && Accepts(e, s[i..i + 64]) then Some(64) else None
    case OptionalUuid =>
      if i + 4 <= |s| && Folds(s[i..i + 4], NONE) then Some(4)
      else if i + 36 <= |s| && IsUuid(s[i..i + 36]) then Some(36) else None
  }

  function SkipSpace(s: string, i: nat): (k: nat)
    requires i <= |s|
    ensures i <= k <= |s| && (forall j :: i <= j < k ==> Space(s[j])) && (k < |s| ==> !Space(s[k]))
    decreases |s| - i
  {
    if i < |s| && Space(s[i]) then SkipSpace(s, i + 1) else i
  }

  predicate Captures(e: Elem) {
    e.Uuid? || e.Hash? || e.OptionalUuid?
  }

  datatype Match = Match(end: nat, groups: seq<string>)

  /** The deterministic matcher: white space is skipped greedily, everything else has one way to match. */
  function MatchAt(p: seq<Elem>, s: string, i: nat): (m: Option<Match>)
    requires i <= |s|
    ensures m.Some? ==> i <= m.value.end <= |s|
    decreases |p|
  {
    if p == [] then Some(Match(i, []))
    else if p[0].Ws? then MatchAt(p[1..], s, SkipSpace(s, i))
    else
      var n := Take(p[0], s, i);
      if n.None? then None
      else
        var rest := MatchAt(p[1..], s, i + n.value);
        if rest.None? then None
        else if Captures(p[0]) then Some(Match(rest.value.end, [s[i..i + n.value]] + rest.value.groups))
        else rest
  }

  // --- the grammar the expression denotes, with every choice left open

  ghost predicate Derives(p: seq<Elem>, s: string, i: nat, end: nat, groups: seq<string>)
    requires i <= |s|
    decreases |p|
  {
    if p == [] then end == i && groups == []
    else if p[0].Ws? then
      exists k :: i <= k <= |s| && AllSpace(s, i, k) && Derives(p[1..], s, k, end, groups)
    else
      exists k :: i <= k <= |s| && Accepts(p[0], s[i..k]) &&
        if Captures(p[0]) then groups != [] && groups[0] == s[i..k] && Derives(p[1..], s, k, end, groups[1..])
        else Derives(p[1..], s, k, end, groups)
  }

  ghost predicate AllSpace(s: string, i: nat, k: nat)
    requires k <= |s|
  {
    forall j :: i <= j < k ==> Space(s[j])
  }

  /** White space is never last, and is always followed by an element that cannot start with white space. */
  ghost predicate Solid(p: seq<Elem>) {
    && (forall i :: 0 <= i < |p| && p[i].Ws? ==> i + 1 < |p| && !p[i + 1].Ws?)
    && (forall i :: 0 <= i < |p| && p[i].Lit? ==> p[i].text != "" && !Space(p[i].text[0]))
  }

  ghost predicate SolidElem(e: Elem) {
    !e.Ws? && (e.Lit? ==> e.text != "" && !Space(e.text[0]))
  }

  /** A solid element accepts a nonempty text that does not start with white space. */
  lemma {:induction false} AcceptsSolid(e: Elem, text: string)
    requires SolidElem(e) && Accepts(e, text)
    ensures text != "" && !Space(text[0])
  {
    if e.OptionalUuid? && Folds(text, NONE) {
      assert Fold(text[0]) == NONE[0];
    } else if e.Lit? {
      assert Fold(text[0]) == e.text[0];
    } else if e.Uuid? || e.OptionalUuid? {
      assert !Dash(0) && Hex(text[0]);
    } else {
      assert Hex(text[0]);
    }
  }

  lemma {:induction false} NoneStart(a: string)
    requires Folds(a, NONE)
    ensures !Hex(a[0])
  {
    assert Fold(a[0]) == NONE[0];
  }

  lemma {:induction false} UuidStart(b: string)
    requires IsUuid(b)
    ensures Hex(b[0])
  {
    assert !Dash(0);
  }

  /** An element matches at a position in exactly one way. */
  lemma {:induction false} TakeUnique(e: Elem, s: string, i: nat, k: nat)
    requires !e.Ws? && i <= k <= |s|
    ensures Accepts(e, s[i..k]) <==> Take(e, s, i) == Some(k - i)
  {
    if e.OptionalUuid? && i + 36 <= |s| {
      if Folds(s[i..i + 4], NONE) {
        NoneStart(s[i..i + 4]);
      }
      if IsUuid(s[i..i + 36]) {
        UuidStart(s[i..i + 36]);
      }
      assert s[i..i + 4][0] == s[i..i + 36][0];
    }
  }

  /** The deterministic matcher finds exactly the derivations of the grammar. */
  lemma {:induction false} MatcherAgrees(p: seq<Elem>, s: string, i: nat, end: nat, groups: seq<string>)
    requires i <= |s| && Solid(p)
    ensures Derives(p, s, i, end, groups) <==> MatchAt(p, s, i) == Some(Match(end, groups))
    decreases |p|, 1
  {
    if p != [] {
      assert Solid(p[1..]) by {
        forall j | 0 <= j < |p| - 1 ensures p[1..][j] == p[j + 1] {
        }
      }
      if p[0].Ws? {
        var far := SkipSpace(s, i);
        assert p[1..][0] == p[1];
        forall k | i <= k <= |s| && AllSpace(s, i, k)
          ensures Derives(p[1..], s, k, end, groups) <==> MatchAt(p[1..], s, k) == Some(Match(end, groups))
          ensures MatchAt(p[1..], s, k).Some? ==> k == far
        {
          MatcherAgrees(p[1..], s, k, end, groups);
          StopsAtSolid(p[1..], s, i, k);
        }
        assert AllSpace(s, i, far);
      } else {
        if Derives(p, s, i, end, groups) {
          DerivedIsMatched(p, s, i, end, groups);
        }
        if MatchAt(p, s, i) == Some(Match(end, groups)) {
          MatchedIsDerived(p, s, i, end, groups);
        }
      }
    }
  }

  lemma {:induction false} DerivedIsMatched(p: seq<Elem>, s: string, i: nat, end: nat, groups: seq<string>)
    requires i <= |s| && p != [] && !p[0].Ws? && Solid(p[1..]) && Derives(p, s, i, end, groups)
    ensures MatchAt(p, s, i) == Some(Match(end, groups))
    decreases |p|, 0
  {
    hide Accepts, Take, Solid;
    var e, rest := p[0], if Captures(p[0]) then groups[1..] else groups;
    var k :| i <= k <= |s| && Accepts(e, s[i..k]) && Derives(p[1..], s, k, end, rest) &&
             (Captures(e) ==> groups[0] == s[i..k]);
    TakeUnique(e, s, i, k);
    MatcherAgrees(p[1..], s, k, end, rest);
    assert Captures(e) ==> groups == [groups[0]] + rest;
  }

  lemma {:induction false} MatchedIsDerived(p: seq<Elem>, s: string, i: nat, end: nat, groups: seq<string>)
    requires i <= |s| && p != [] && !p[0].Ws? && Solid(p[1..])
    requires MatchAt(p, s, i) == Some(Match(end, groups))
    ensures Derives(p, s, i, end, groups)
    decreases |p|, 0
  {
    TakeInside(p[0], s, i);
    hide Accepts, Take, Solid;
    var k := i + Take(p[0], s, i).value;
    var rest := if Captures(p[0]) then groups[1..] else groups;
    TakeUnique(p[0], s, i, k);
    MatcherAgrees(p[1..], s, k, end, rest);
    assert Accepts(p[0], s[i..k]) && Derives(p[1..], s, k, end, rest);
  }

  lemma {:induction false} TakeInside(e: Elem, s: string, i: nat)
    requires i <= |s|
    ensures Take(e, s, i).Some? ==> i + Take(e, s, i).value <= |s|
  {
  }

  lemma {:induction false} StopsAtSolid(p: seq<Elem>, s: string, i: nat, k: nat)
    requires p != [] && Solid(p) && !p[0].Ws? && i <= k <= |s| && AllSpace(s, i, k)
    ensures MatchAt(p, s, k).Some? ==> k == SkipSpace(s, i)
  {
    if MatchAt(p, s, k).Some? {
      var n := Take(p[0], s, k).value;
      TakeUnique(p[0], s, k, k + n);
      AcceptsSolid(p[0], s[k..k + n]);
      assert s[k] == s[k..k + n][0];
    }
  }

  // --- the identity and its printed form

  datatype Identity = Identity(
    proposal: string, hash: string, target: Option<string>, parent: Option<string>,
    conversation: string, organization: string, user: string)
  {
    /** Identifiers and the content hash in their canonical lower-case text. */
    ghost predicate Valid() {
      && CanonicalUuid(proposal) && IsHash(hash) && Lower(hash) == hash
      && (target.Some? ==> CanonicalUuid(target.value)) && (parent.Some? ==> CanonicalUuid(parent.value))
      && CanonicalUuid(conversation) && CanonicalUuid(organization) && CanonicalUuid(user)
    }
  }

  ghost predicate CanonicalUuid(s: string) {
    IsUuid(s) && Lower(s) == s
  }

  function OrNone(id: Option<string>): string {
    if id.None? then "none" else id.value
  }

  datatype Field = Field(name: string, kind: Elem)

  const FIELDS: seq<Field> := [
    Field("proposal_id:", Uuid), Field("content_hash:", Hash), Field("target_strategy_id:", OptionalUuid),
    Field("parent_version_id:", OptionalUuid), Field("conversation_id:", Uuid), Field("organization_id:", Uuid),
    Field("user_id:", Uuid)]

  function Values(id: Identity): seq<string> {
    [id.proposal, id.hash, OrNone(id.target), OrNone(id.parent), id.conversation, id.organization, id.user]
  }

  function FieldLines(fields: seq<Field>, values: seq<string>): seq<string>
    requires |fields| == |values|
  {
    if fields == [] then []
    else [fields[0].name + " " + values[0]] + FieldLines(fields[1..], values[1..])
  }

  function JoinLines(lines: seq<string>): string {
    if lines == [] then "" else if |lines| == 1 then lines[0] else lines[0] + "\n" + JoinLines(lines[1..])
  }

  /** `format_presented_confirmation_identity`. */
  function Format(id: Identity): string {
    JoinLines([BEGIN] + FieldLines(FIELDS, Values(id)) + [END, TRAILER])
  }

  function FieldPattern(fields: seq<Field>): seq<Elem> {
    if fields == [] then [Lit(END)]
    else FieldElems(fields[0], FieldPattern(fields[1..]))
  }

  function Pattern(): seq<Elem> {
    [Lit(BEGIN)] + ([Ws] + FieldPattern(FIELDS))
  }

  /** The last of the leftmost, non-overlapping matches from a position on. */
  function LastMatch(s: string, i: nat): Option<Match>
    decreases |s| - i
  {
    if i >= |s| then None
    else
      var m := MatchAt(Pattern(), s, i);
      if m.None? || m.value.end <= i then LastMatch(s, i + 1)
      else
        var later := LastMatch(s, m.value.end);
        if later.Some? then later else m
  }

  function FromGroup(group: string): Option<string> {
    if Lower(group) == "none" then None else Some(Lower(group))
  }

  /** `parse_presented_confirmation_identity`. */
  function Parse(content: string): Option<Identity> {
    var m := LastMatch(content, 0);
    if m.None? || |m.value.groups| != 7 then None
    else
      var g := m.value.groups;
      Some(Identity(Lower(g[0]), Lower(g[1]), FromGroup(g[2]), FromGroup(g[3]), Lower(g[4]), Lower(g[5]), Lower(g[6])))
  }

  // --- a printed block matches where it stands

  /** The printed text from the first label to the end marker. */
  function Body(fields: seq<Field>, values: seq<string>): string
    requires |fields| == |values|
  {
    if fields == [] then END
    else FieldText(fields[0].name, values[0], Body(fields[1..], values[1..]))
  }

  /** Every label and value matches its own element and starts with a visible character. */
  ghost predicate Printable(fields: seq<Field>, values: seq<string>)
    requires |fields| == |values|
  {
    forall i :: 0 <= i < |fields| ==>
      && fields[i].name != "" && !Space(fields[i].name[0]) && Accepts(Lit(fields[i].name), fields[i].name)
      && Captures(fields[i].kind) && Accepts(fields[i].kind, values[i])
  }

  /** The match of a pattern that starts with an element, from the match of the rest. */
  function Prefixed(e: Elem, text: string, rest: Option<Match>): Option<Match> {
    if rest.None? then None
    else if Captures(e) then Some(Match(rest.value.end, [text] + rest.value.groups))
    else rest
  }

  lemma {:induction false} MatchLit(e: Elem, text: string, p: seq<Elem>, s: string, i: nat)
    requires !e.Ws? && StartsAt(s, i, text) && Accepts(e, text)
    ensures MatchAt([e] + p, s, i) == Prefixed(e, text, MatchAt(p, s, i + |text|))
  {
    hide Accepts, Take, SkipSpace, MatchAt;
    TakeUnique(e, s, i, i + |text|);
    MatchSolid([e] + p, s, i, |text|);
    assert ([e] + p)[1..] == p;
  }

  lemma {:induction false} MatchSolid(p: seq<Elem>, s: string, i: nat, n: nat)
    requires p != [] && !p[0].Ws? && i + n <= |s| && Take(p[0], s, i) == Some(n)
    ensures MatchAt(p, s, i) == Prefixed(p[0], s[i..i + n], MatchAt(p[1..], s, i + n))
  {
    hide Accepts, Take, SkipSpace;
  }

  lemma {:induction false} MatchGap(p: seq<Elem>, s: string, i: nat)
    requires i + 1 < |s| && Space(s[i]) && !Space(s[i + 1])
    ensures MatchAt([Ws] + p, s, i) == MatchAt(p, s, i + 1)
  {
    assert ([Ws] + p)[1..] == p;
    assert SkipSpace(s, i) == i + 1;
  }

  predicate StartsAt(s: string, i: nat, text: string) {
    i + |text| <= |s| && s[i..i + |text|] == text
  }

  lemma {:induction false} StartsSplit(s: string, i: nat, a: string, b: string)
    requires StartsAt(s, i, a + b)
    ensures StartsAt(s, i, a) && StartsAt(s, i + |a|, b)
  {
    assert s[i..i + |a|] == s[i..i + |a + b|][..|a|];
    assert s[i + |a|..i + |a| + |b|] == s[i..i + |a + b|][|a|..];
  }

  /** Lower-case ASCII and punctuation, which case folding leaves alone. */
  predicate Steady(c: char) {
    'a' <= c <= 'z' || c in {' ', '-', '_', ':'}
  }

  lemma {:induction false} SteadyFolds(text: string)
    requires forall i :: 0 <= i < |text| ==> Steady(text[i])
    ensures Folds(text, text)
  {
  }

  lemma {:induction false} EndMatches()
    ensures Accepts(Lit(END), END) && !Space(END[0])
  {
    SteadyFolds(END);
  }

  lemma {:induction false} BodyVisible(fields: seq<Field>, values: seq<string>)
    requires |fields| == |values| && Printable(fields, values)
    ensures Body(fields, values) != "" && !Space(Body(fields, values)[0])
  {
    EndMatches();
    if fields != [] {
      assert fields[0].name != "";
    }
  }

  function FieldElems(field: Field, p: seq<Elem>): seq<Elem> {
    [Lit(field.name)] + ([Ws] + ([field.kind] + ([Ws] + p)))
  }

  function FieldText(name: string, value: string, body: string): (text: string)
    ensures |text| == |name| + |value| + |body| + 2
  {
    name + (" " + (value + ("\n" + body)))
  }

  /** A text, one separating character and the rest. */
  lemma {:induction false} GapSplit(s: string, i: nat, a: string, gap: string, rest: string)
    requires |gap| == 1 && rest != "" && StartsAt(s, i, a + (gap + rest))
    ensures StartsAt(s, i, a) && StartsAt(s, i + |a| + 1, rest)
    ensures i + |a| + 1 < |s| && s[i + |a|] == gap[0] && s[i + |a| + 1] == rest[0]
  {
    StartsSplit(s, i, a, gap + rest);
    StartsSplit(s, i + |a|, gap, rest);
    hide StartsAt;
    StartsWith(s, i + |a|, gap);
    StartsWith(s, i + |a| + 1, rest);
  }

  /** Where the parts of a printed field stand. */
  lemma {:induction false} FieldSplit(name: string, value: string, body: string, s: string, i: nat)
    requires StartsAt(s, i, FieldText(name, value, body)) && value != "" && body != ""
    ensures StartsAt(s, i, name) && StartsAt(s, i + |name| + 1, value) && StartsAt(s, i + |name| + |value| + 2, body)
    ensures var j := i + |name|; var k := j + 1 + |value|;
            k + 1 < |s| && s[j] == ' ' && s[j + 1] == value[0] && s[k] == '\n' && s[k + 1] == body[0]
  {
    hide StartsAt;
    var rest := value + ("\n" + body);
    assert rest[0] == value[0];
    GapSplit(s, i, name, " ", rest);
    GapSplit(s, i + |name| + 1, value, "\n", body);
  }

  /** One printed field, followed by a visible text that matches the rest of the pattern. */
  lemma {:induction false} FieldMatches(field: Field, value: string, p: seq<Elem>, s: string, i: nat)
    requires Captures(field.kind) && Accepts(field.kind, value) && Accepts(Lit(field.name), field.name)
    requires StartsAt(s, i, field.name) && StartsAt(s, i + |field.name| + 1, value)
    requires var j := i + |field.name|; var k := j + 1 + |value|;
             k + 1 < |s| && s[j] == ' ' && !Space(s[j + 1]) && s[k] == '\n' && !Space(s[k + 1])
    ensures MatchAt(FieldElems(field, p), s, i) ==
            Prefixed(field.kind, value, MatchAt(p, s, i + |field.name| + |value| + 2))
  {
    var j := i + |field.name|;
    var k := j + 1 + |value|;
    hide MatchAt, Accepts, StartsAt;
    assert Space(' ') && Space('\n');
    hide Space;
    MatchGap(p, s, k);
    MatchLit(field.kind, value, [Ws] + p, s, j + 1);
    MatchGap([field.kind] + ([Ws] + p), s, j);
    MatchLit(Lit(field.name), field.name, [Ws] + ([field.kind] + ([Ws] + p)), s, i);
  }

  lemma {:induction false} StartsWith(s: string, i: nat, text: string)
    requires StartsAt(s, i, text) && text != ""
    ensures i < |s| && s[i] == text[0]
  {
    assert s[i..i + |text|][0] == s[i];
  }

  lemma {:induction false} MarkerMatches(s: string, i: nat)
    requires StartsAt(s, i, END)
    ensures MatchAt([Lit(END)], s, i) == Some(Match(i + |END|, []))
  {
    EndMatches();
    hide Accepts, StartsAt;
    MatchLit(Lit(END), END, [], s, i);
    assert [Lit(END)] + [] == [Lit(END)];
    assert MatchAt([], s, i + |END|) == Some(Match(i + |END|, []));
  }

  lemma {:induction false} BodyMatches(fields: seq<Field>, values: seq<string>, s: string, i: nat)
    requires |fields| == |values| && Printable(fields, values) && StartsAt(s, i, Body(fields, values))
    ensures MatchAt(FieldPattern(fields), s, i) == Some(Match(i + |Body(fields, values)|, values))
    decreases |fields|
  {
    hide MatchAt, Accepts, StartsAt, Space, Printable, FieldText, FieldElems;
    if fields == [] {
      MarkerMatches(s, i);
    } else {
      var field, value, body := fields[0], values[0], Body(fields[1..], values[1..]);
      PrintableParts(fields, values);
      BodyVisible(fields[1..], values[1..]);
      AcceptsSolid(field.kind, value);
      FieldSplit(field.name, value, body, s, i);
      BodyMatches(fields[1..], values[1..], s, i + |field.name| + |value| + 2);
      FieldMatches(field, value, FieldPattern(fields[1..]), s, i);
      assert [value] + values[1..] == values;
    }
  }

  lemma {:induction false} PrintableParts(fields: seq<Field>, values: seq<string>)
    requires |fields| == |values| > 0 && Printable(fields, values)
    ensures Captures(fields[0].kind) && Accepts(fields[0].kind, values[0])
    ensures Accepts(Lit(fields[0].name), fields[0].name)
    ensures Printable(fields[1..], values[1..])
  {
  }

  // --- the printed footer, and what stands before and after it

  /** Labels are lower-case text that starts with a letter. */
  ghost predicate Label(name: string) {
    name != "" && 'a' <= name[0] <= 'z' && forall i :: 0 <= i < |name| ==> Steady(name[i])
  }

  lemma {:induction false} LabelsSteady()
    ensures Label("proposal_id:") && Label("content_hash:") && Label("target_strategy_id:")
    ensures Label("parent_version_id:") && Label("conversation_id:") && Label("organization_id:") && Label("user_id:")
  {
  }

  ghost predicate Labelled(fields: seq<Field>) {
    forall i :: 0 <= i < |fields| ==> Label(fields[i].name) && Captures(fields[i].kind)
  }

  lemma {:induction false} FieldsLabelled()
    ensures Labelled(FIELDS)
  {
    LabelsSteady();
    hide Label;
  }

  lemma {:induction false} IdentityPrintable(id: Identity)
    requires id.Valid()
    ensures |FIELDS| == |Values(id)| && Printable(FIELDS, Values(id))
  {
    FieldsLabelled();
    assert Folds(NONE, NONE);
    forall i | 0 <= i < |FIELDS| ensures Accepts(Lit(FIELDS[i].name), FIELDS[i].name) && !Space(FIELDS[i].name[0]) {
      SteadyFolds(FIELDS[i].name);
    }
    forall i | 0 <= i < |FIELDS| ensures Accepts(FIELDS[i].kind, Values(id)[i]) {
      hide IsUuid, IsHash, Folds, Label;
    }
    hide Accepts, Space;
  }

  lemma {:induction false} LinesJoined(fields: seq<Field>, values: seq<string>)
    requires |fields| == |values|
    ensures JoinLines(FieldLines(fields, values) + [END, TRAILER]) == Body(fields, values) + ("\n" + TRAILER)
    decreases |fields|
  {
    hide END, TRAILER;
    var tail := [END, TRAILER];
    if fields == [] {
      assert [] + tail == tail && tail[1..] == [TRAILER];
    } else {
      var line := fields[0].name + " " + values[0];
      var lines := FieldLines(fields[1..], values[1..]) + tail;
      LinesJoined(fields[1..], values[1..]);
      assert FieldLines(fields, values) + tail == [line] + lines;
      JoinStep(line, lines);
      FieldJoined(fields[0].name, values[0], Body(fields[1..], values[1..]), "\n" + TRAILER);
    }
  }

  lemma {:induction false} JoinStep(line: string, lines: seq<string>)
    requires lines != []
    ensures JoinLines([line] + lines) == line + "\n" + JoinLines(lines)
  {
    assert ([line] + lines)[1..] == lines;
  }

  lemma {:induction false} FieldJoined(name: string, value: string, body: string, tail: string)
    ensures name + " " + value + "\n" + (body + tail) == FieldText(name, value, body) + tail
  {
  }

  function BodyOf(id: Identity): string {
    Body(FIELDS, Values(id))
  }

  lemma {:induction false} FormatJoined(id: Identity)
    ensures Format(id) == BEGIN + ("\n" + (BodyOf(id) + ("\n" + TRAILER)))
  {
    hide Body;
    LinesJoined(FIELDS, Values(id));
    var lines := FieldLines(FIELDS, Values(id)) + [END, TRAILER];
    assert [BEGIN] + FieldLines(FIELDS, Values(id)) + [END, TRAILER] == [BEGIN] + lines;
    assert ([BEGIN] + lines)[1..] == lines;
  }

  /** Where the parts of a footer stand when it is the end of a text. */
  lemma {:induction false} FooterSplit(t: string, begin: string, body: string, trailer: string)
    requires body != ""
    ensures var s, b := t + (begin + ("\n" + (body + ("\n" + trailer)))), |t|;
            var j := b + |begin|; var e := j + 1 + |body|;
            && StartsAt(s, b, begin) && s[j] == '\n' && s[j + 1] == body[0] && StartsAt(s, j + 1, body)
            && e <= |s| && s[e..] == "\n" + trailer
  {
    var rest := body + ("\n" + trailer);
    var s := t + (begin + ("\n" + rest));
    assert StartsAt(s, |t|, begin + ("\n" + rest));
    assert rest[0] == body[0];
    GapSplit(s, |t|, begin, "\n", rest);
    StartsSplit(s, |t| + |begin| + 1, body, "\n" + trailer);
    EndsWith(s, |t| + |begin| + 1 + |body|, "\n" + trailer);
    hide StartsAt;
  }

  lemma {:induction false} EndsWith(s: string, i: nat, text: string)
    requires StartsAt(s, i, text) && |s| == i + |text|
    ensures s[i..] == text
  {
  }

  lemma {:induction false} BeginMatches()
    ensures |BEGIN| == 29 && |END| == 33 && BEGIN[0] == '-' && BEGIN[4] == 'c' && END[4] == 'e'
    ensures Accepts(Lit(BEGIN), BEGIN)
  {
    SteadyFolds(BEGIN);
  }

  lemma {:induction false} BlockMatches(begin: string, fields: seq<Field>, values: seq<string>, s: string, b: nat)
    requires Accepts(Lit(begin), begin) && StartsAt(s, b, begin)
    requires |fields| == |values| && Printable(fields, values)
    requires var j := b + |begin|; j < |s| && s[j] == '\n' && StartsAt(s, j + 1, Body(fields, values))
    ensures MatchAt([Lit(begin)] + ([Ws] + FieldPattern(fields)), s, b) ==
            Some(Match(b + |begin| + 1 + |Body(fields, values)|, values))
  {
    hide Accepts, StartsAt, MatchAt, Printable, FieldPattern, Body;
    BodyStands(fields, values, s, b + |begin| + 1);
    BodyMatches(fields, values, s, b + |begin| + 1);
    hide Space;
    MarkedMatches(begin, FieldPattern(fields), s, b);
  }

  lemma {:induction false} BodyStands(fields: seq<Field>, values: seq<string>, s: string, i: nat)
    requires |fields| == |values| && Printable(fields, values) && StartsAt(s, i, Body(fields, values))
    ensures i < |s| && !Space(s[i])
  {
    hide StartsAt, Printable, Body, Space;
    BodyVisible(fields, values);
    StartsWith(s, i, Body(fields, values));
  }

  /** The opening marker and one newline in front of a visible match. */
  lemma {:induction false} MarkedMatches(begin: string, p: seq<Elem>, s: string, b: nat)
    requires Accepts(Lit(begin), begin) && StartsAt(s, b, begin)
    requires var j := b + |begin|; j + 1 < |s| && s[j] == '\n' && !Space(s[j + 1])
    ensures MatchAt([Lit(begin)] + ([Ws] + p), s, b) == MatchAt(p, s, b + |begin| + 1)
  {
    assert Space('\n');
    hide Accepts, StartsAt, MatchAt, Space;
    MatchGap(p, s, b + |begin|);
    MatchLit(Lit(begin), begin, [Ws] + p, s, b);
  }

  /** An element that takes no newline. */
  ghost predicate Quiet(e: Elem) {
    e.Lit? ==> '\n' !in e.text
  }

  lemma {:induction false} AcceptsNoNewline(e: Elem, text: string, k: nat)
    requires Quiet(e) && !e.Ws? && Accepts(e, text) && k < |text|
    ensures text[k] != '\n'
  {
    if e.Lit? {
      assert Fold(text[k]) == e.text[k];
    } else if |text| == 4 {
      assert Fold(text[k]) == NONE[k];
    }
  }

  /** No element of the pattern starts a match at the footer. */
  ghost predicate Calm(p: seq<Elem>, s: string, b: nat) {
    forall i :: 0 <= i < |p| && !p[i].Ws? ==> Quiet(p[i]) && Take(p[i], s, b).None?
  }

  /** A match that starts above the footer ends above it. */
  lemma {:induction false} StaysAbove(p: seq<Elem>, s: string, i: nat, b: nat)
    requires i <= b < |s| && !Space(s[b]) && (b > 0 ==> s[b - 1] == '\n') && Calm(p, s, b)
    ensures MatchAt(p, s, i).Some? ==> MatchAt(p, s, i).value.end <= b
    decreases |p|
  {
    hide SkipSpace, Space, Take, Quiet;
    if p != [] && MatchAt(p, s, i).Some? {
      assert Calm(p[1..], s, b);
      if p[0].Ws? {
        StaysAbove(p[1..], s, SkipSpace(s, i), b);
      } else {
        ElementStays(p[0], s, i, b);
        StaysAbove(p[1..], s, i + Take(p[0], s, i).value, b);
      }
    }
  }

  lemma {:induction false} ElementStays(e: Elem, s: string, i: nat, b: nat)
    requires i <= b < |s| && (b > 0 ==> s[b - 1] == '\n') && !e.Ws? && Quiet(e)
    requires i == b ==> Take(e, s, b).None?
    ensures Take(e, s, i).Some? ==> i + Take(e, s, i).value <= b
  {
    if Take(e, s, i).Some? {
      var n := Take(e, s, i).value;
      TakeInside(e, s, i);
      TakeUnique(e, s, i, i + n);
      if i + n > b {
        AcceptsNoNewline(e, s[i..i + n], b - 1 - i);
      }
    }
  }

  lemma {:induction false} LitStart(text: string, s: string, b: nat, k: nat)
    requires k < |text|
    ensures Take(Lit(text), s, b).Some? ==> b + k < |s| && Fold(s[b + k]) == text[k]
  {
    if Take(Lit(text), s, b).Some? {
      assert Fold(s[b..b + |text|][k]) == text[k];
    }
  }

  lemma {:induction false} NoNewlineInMarkers()
    ensures '\n' !in BEGIN && '\n' !in END
  {
  }

  lemma {:induction false} FieldCalm(field: Field, s: string, b: nat)
    requires b < |s| && s[b] == '-' && Label(field.name) && Captures(field.kind)
    ensures Quiet(Lit(field.name)) && Take(Lit(field.name), s, b).None?
    ensures Quiet(field.kind) && Take(field.kind, s, b).None?
  {
    if Take(field.kind, s, b).Some? {
      var n := Take(field.kind, s, b).value;
      TakeInside(field.kind, s, b);
      TakeUnique(field.kind, s, b, b + n);
      KindStart(field.kind, s[b..b + n]);
    }
    LitStart(field.name, s, b, 0);
  }

  lemma {:induction false} KindStart(e: Elem, text: string)
    requires Captures(e) && Accepts(e, text)
    ensures text != "" && text[0] != '-'
  {
    if e.OptionalUuid? && Folds(text, NONE) {
      assert Fold(text[0]) == NONE[0];
    } else if e.Uuid? || e.OptionalUuid? {
      UuidStart(text);
    } else {
      assert Hex(text[0]);
    }
  }

  lemma {:induction false} EndCalm(s: string, b: nat)
    requires StartsAt(s, b, BEGIN)
    ensures Quiet(Lit(END)) && Take(Lit(END), s, b).None?
  {
    NoNewlineInMarkers();
    BeginMatches();
    assert s[b..b + |BEGIN|][4] == s[b + 4] == 'c';
    LitStart(END, s, b, 4);
  }

  lemma {:induction false} PatternCalm(fields: seq<Field>, s: string, b: nat)
    requires Labelled(fields) && StartsAt(s, b, BEGIN)
    ensures Calm(FieldPattern(fields), s, b)
    decreases |fields|
  {
    EndCalm(s, b);
    if fields != [] {
      BeginMatches();
      StartsWith(s, b, BEGIN);
      FieldCalm(fields[0], s, b);
      PatternCalm(fields[1..], s, b);
      hide Take, Quiet, Label;
      CalmField(fields[0], FieldPattern(fields[1..]), s, b);
    }
  }

  lemma {:induction false} CalmField(field: Field, p: seq<Elem>, s: string, b: nat)
    requires Calm(p, s, b) && Quiet(Lit(field.name)) && Take(Lit(field.name), s, b).None?
    requires Quiet(field.kind) && Take(field.kind, s, b).None?
    ensures Calm(FieldElems(field, p), s, b)
  {
    hide Take, Quiet;
  }

  /** A block that starts above the footer ends above it. */
  lemma {:induction false} BlockStaysAbove(s: string, i: nat, b: nat)
    requires i < b && StartsAt(s, b, BEGIN) && s[b - 1] == '\n'
    ensures MatchAt(Pattern(), s, i).Some? ==> MatchAt(Pattern(), s, i).value.end <= b
  {
    NoNewlineInMarkers();
    assert Quiet(Lit(BEGIN));
    hide MatchAt, Calm, Quiet, FieldPattern, Labelled, StartsAt, BEGIN, FIELDS;
    FieldsLabelled();
    PatternCalm(FIELDS, s, b);
    BeginMatches();
    StartsWith(s, b, BEGIN);
    PrefixStaysAbove(Lit(BEGIN), FieldPattern(FIELDS), s, i, b);
  }

  lemma {:induction false} MatchHead(p: seq<Elem>, s: string, i: nat)
    requires i <= |s| && p != [] && !p[0].Ws? && MatchAt(p, s, i).Some?
    ensures Take(p[0], s, i).Some?
  {
    hide Take;
  }

  lemma {:induction false} HeadStaysAbove(p: seq<Elem>, s: string, i: nat, b: nat)
    requires i < b < |s| && s[b] == '-' && s[b - 1] == '\n'
    requires p != [] && !p[0].Ws? && Quiet(p[0]) && Calm(p[1..], s, b)
    ensures MatchAt(p, s, i).Some? ==> MatchAt(p, s, i).value.end <= b
  {
    hide MatchAt, Take, Calm, Quiet;
    if MatchAt(p, s, i).Some? {
      MatchHead(p, s, i);
      ElementStays(p[0], s, i, b);
      TakeInside(p[0], s, i);
      MatchSolid(p, s, i, Take(p[0], s, i).value);
      StaysAbove(p[1..], s, i + Take(p[0], s, i).value, b);
    }
  }

  lemma {:induction false} CalmGap(p: seq<Elem>, s: string, b: nat)
    requires Calm(p, s, b)
    ensures Calm([Ws] + p, s, b)
  {
    hide Take, Quiet;
  }

  lemma {:induction false} PrefixStaysAbove(e: Elem, p: seq<Elem>, s: string, i: nat, b: nat)
    requires i < b < |s| && s[b] == '-' && s[b - 1] == '\n' && !e.Ws? && Quiet(e) && Calm(p, s, b)
    ensures var m := MatchAt([e] + ([Ws] + p), s, i); m.Some? ==> m.value.end <= b
  {
    hide MatchAt, Calm, Quiet;
    CalmGap(p, s, b);
    var r := [e] + ([Ws] + p);
    assert r[0] == e && r[1..] == [Ws] + p;
    HeadStaysAbove(r, s, i, b);
  }

  lemma {:induction false} NoBlockAt(s: string, i: nat)
    requires i < |s| && s[i] != '-'
    ensures MatchAt(Pattern(), s, i) == None
  {
    BeginMatches();
    hide BEGIN, FieldPattern;
    LitStart(BEGIN, s, i, 0);
    assert Fold(s[i]) != '-';
    hide Take;
  }

  lemma {:induction false} NoBlockBelow(s: string, i: nat)
    requires forall k :: i <= k < |s| ==> s[k] != '-'
    ensures LastMatch(s, i) == None
    decreases |s| - i
  {
    if i < |s| {
      NoBlockBelow(s, i + 1);
      NoBlockAt(s, i);
      hide MatchAt, Pattern;
    }
  }

  /** The scan passes every earlier block and returns the footer. */
  lemma {:induction false} ScanReachesFooter(s: string, i: nat, b: nat, footer: Match)
    requires i <= b && StartsAt(s, b, BEGIN) && (b > 0 ==> s[b - 1] == '\n')
    requires MatchAt(Pattern(), s, b) == Some(footer) && footer.end > b && LastMatch(s, footer.end) == None
    ensures LastMatch(s, i) == Some(footer)
    decreases b - i
  {
    hide MatchAt, Pattern;
    if i < b {
      BlockStaysAbove(s, i, b);
      var m := MatchAt(Pattern(), s, i);
      ScanReachesFooter(s, if m.None? || m.value.end <= i then i + 1 else m.value.end, b, footer);
    }
  }

  lemma {:induction false} NoDashInTrailer()
    ensures '-' !in "\n" + TRAILER
  {
    assert '-' !in "Reply \"I confirm\" to accept " && '-' !in "this exact proposal. ";
    assert '-' !in "A newer draft requires " && '-' !in "a new explicit confirmation.";
  }

  /** A text that ends in a footer: the block matches there, and the trailer is all that follows. */
  lemma {:induction false} FooterShape(t: string, id: Identity)
    requires id.Valid()
    ensures var s, b := t + Format(id), |t|; var e := b + |BEGIN| + 1 + |BodyOf(id)|;
            && e <= |s| && StartsAt(s, b, BEGIN) && MatchAt(Pattern(), s, b) == Some(Match(e, Values(id)))
            && s[e..] == "\n" + TRAILER
  {
    hide Format, Printable, MatchAt, Accepts, FieldPattern, StartsAt, Body, Values, BEGIN, TRAILER, FIELDS;
    FormatJoined(id);
    IdentityPrintable(id);
    BeginMatches();
    FooterMatches(t, BEGIN, FIELDS, Values(id), TRAILER);
  }

  lemma {:induction false} FooterMatches(
    t: string, begin: string, fields: seq<Field>, values: seq<string>, trailer: string)
    requires Accepts(Lit(begin), begin) && |fields| == |values| && Printable(fields, values)
    ensures var body := Body(fields, values);
            var s, b := t + (begin + ("\n" + (body + ("\n" + trailer)))), |t|;
            var e := b + |begin| + 1 + |body|;
            && e <= |s| && s[e..] == "\n" + trailer && StartsAt(s, b, begin)
            && MatchAt([Lit(begin)] + ([Ws] + FieldPattern(fields)), s, b) == Some(Match(e, values))
  {
    hide Printable, MatchAt, Accepts, FieldPattern, StartsAt, Body;
    BodyVisible(fields, values);
    var body := Body(fields, values);
    FooterSplit(t, begin, body, trailer);
    BlockMatches(begin, fields, values, t + (begin + ("\n" + (body + ("\n" + trailer)))), |t|);
  }

  lemma {:induction false} FooterFound(t: string, id: Identity)
    requires id.Valid() && (t != "" ==> t[|t| - 1] == '\n')
    ensures var m := LastMatch(t + Format(id), 0); m.Some? && m.value.groups == Values(id)
  {
    hide Format, BodyOf, Values, BEGIN, TRAILER, FIELDS, StartsAt, LastMatch, MatchAt, Pattern;
    var s, b := t + Format(id), |t|;
    var e := b + |BEGIN| + 1 + |BodyOf(id)|;
    FooterShape(t, id);
    NoDashInTrailer();
    forall k | e <= k < |s| ensures s[k] != '-' {
      assert s[k] == s[e..][k - e];
    }
    NoBlockBelow(s, e);
    ScanReachesFooter(s, 0, b, Match(e, Values(id)));
  }

  lemma {:induction false} GroupRestored(id: Option<string>)
    requires id.Some? ==> CanonicalUuid(id.value)
    ensures FromGroup(OrNone(id)) == id
  {
    assert Lower("none") == "none";
  }

  /** Whatever blocks the text above already holds, the footer just printed is the identity read back. */
  lemma {:induction false} FooterRoundTrip(t: string, id: Identity)
    requires id.Valid() && (t != "" ==> t[|t| - 1] == '\n')
    ensures Parse(t + Format(id)) == Some(id)
  {
    hide LastMatch, Format, FromGroup, OrNone, IsUuid, IsHash, FIELDS;
    FooterFound(t, id);
    GroupRestored(id.target);
    GroupRestored(id.parent);
  }

  // --- the conversation history

  datatype Turn = Turn(assistant: bool, content: string)

  /** The parsed identity of the last assistant turn that has one. */
  function LastPresented(turns: seq<Turn>): Option<Identity> {
    if turns == [] then None
    else
      var turn := turns[|turns| - 1];
      if turn.assistant && Parse(turn.content).Some? then Parse(turn.content)
      else LastPresented(turns[..|turns| - 1])
  }

  function AssistantTurns(turns: seq<Turn>): seq<Turn> {
    if turns == [] then []
    else AssistantTurns(turns[..|turns| - 1]) + (if turns[|turns| - 1].assistant then [turns[|turns| - 1]] else [])
  }

  /** An assistant turn presented this identity, and no later assistant turn presented any. */
  ghost predicate PresentedAt(turns: seq<Turn>, i: nat, id: Option<Identity>)
    requires i < |turns|
  {
    && turns[i].assistant && Parse(turns[i].content) == id
    && forall j :: i < j < |turns| && turns[j].assistant ==> Parse(turns[j].content).None?
  }

  /** Something is presented exactly when some assistant turn presented it and no later one presented any. */
  lemma {:induction false} LastPresentedExact(turns: seq<Turn>)
    ensures var id := LastPresented(turns);
            if id.Some? then exists i :: 0 <= i < |turns| && PresentedAt(turns, i, id)
            else forall i :: 0 <= i < |turns| && turns[i].assistant ==> Parse(turns[i].content).None?
  {
    hide Parse;
    if turns != [] {
      var n := |turns| - 1;
      var front, id := turns[..n], LastPresented(turns);
      LastPresentedExact(front);
      if turns[n].assistant && Parse(turns[n].content).Some? {
        assert PresentedAt(turns, n, id);
      } else if id.Some? {
        var i :| 0 <= i < n && PresentedAt(front, i, id);
        assert PresentedAt(turns, i, id);
      }
    }
  }

  /** `presented_confirmation_identity_from_history`. */
  method FromHistory(turns: seq<Turn>) returns (presented: Option<Identity>)
    ensures presented == LastPresented(turns)
  {
    hide Parse;
    presented := None;
    for n := 0 to |turns|
      invariant presented == LastPresented(turns[..n])
    {
      assert turns[..n + 1][..n] == turns[..n];
      if turns[n].assistant {
        var parsed := Parse(turns[n].content);
        if parsed.Some? {
          presented := parsed;
        }
      }
    }
    assert turns[..|turns|] == turns;
  }

  /** User turns never change what was presented, whatever they quote. */
  lemma {:induction false} UserTurnsIgnored(turns: seq<Turn>)
    ensures LastPresented(turns) == LastPresented(AssistantTurns(turns))
  {
    hide Parse;
    if turns != [] {
      var front, turn := turns[..|turns| - 1], turns[|turns| - 1];
      UserTurnsIgnored(front);
      if turn.assistant {
        assert AssistantTurns(turns)[..|AssistantTurns(turns)| - 1] == AssistantTurns(front);
      } else {
        assert AssistantTurns(turns) == AssistantTurns(front);
      }
    }
  }

  /** A bare confirmation binds to the identity the assistant printed last. */
  lemma {:induction false} HistoryRoundTrip(before: seq<Turn>, t: string, id: Identity, after: seq<Turn>)
    requires id.Valid() && (t != "" ==> t[|t| - 1] == '\n')
    requires forall i :: 0 <= i < |after| && after[i].assistant ==> Parse(after[i].content).None?
    ensures LastPresented(before + [Turn(true, t + Format(id))] + after) == Some(id)
    decreases |after|
  {
    hide Parse, Format;
    var turns := before + [Turn(true, t + Format(id))] + after;
    if after == [] {
      FooterRoundTrip(t, id);
    } else {
      HistoryRoundTrip(before, t, id, after[..|after| - 1]);
      assert turns[..|turns| - 1] == before + [Turn(true, t + Format(id))] + after[..|after| - 1];
      assert turns[|turns| - 1] == after[|after| - 1];
    }
  }

  /** The block the matcher finds is the one and only derivation of the expression at that place. */
  lemma {:induction false} BlockGrammar(s: string, i: nat, end: nat, groups: seq<string>)
    requires i <= |s|
    ensures Derives(Pattern(), s, i, end, groups) <==> MatchAt(Pattern(), s, i) == Some(Match(end, groups))
  {
    hide MatchAt, Derives, FieldPattern, Labelled;
    FieldsLabelled();
    PatternSolid(FIELDS);
    BeginMatches();
    SolidBlock(BEGIN, FieldPattern(FIELDS));
    hide Solid;
    MatcherAgrees(Pattern(), s, i, end, groups);
  }

  lemma {:induction false} SolidBlock(begin: string, p: seq<Elem>)
    requires Solid(p) && p != [] && !p[0].Ws? && begin != "" && !Space(begin[0])
    ensures Solid([Lit(begin)] + ([Ws] + p))
  {
    hide Space;
  }

  lemma {:induction false} PatternSolid(fields: seq<Field>)
    requires Labelled(fields)
    ensures Solid(FieldPattern(fields)) && FieldPattern(fields) != [] && !FieldPattern(fields)[0].Ws?
    decreases |fields|
  {
    EndMatches();
    if fields != [] {
      PatternSolid(fields[1..]);
    }
  }

  // --- the printed text and the expression, written out

  function Text(id: Option<string>): string {
    match id
    case None => "none"
    case Some(text) => text
  }

  /** The eight lines of a block and the line below it. */
  lemma {:induction false} FormatExact(id: Identity)
    ensures Format(id) ==
            BEGIN + ("\n" + (
            ("proposal_id:" + (" " + (id.proposal + ("\n" +
            ("content_hash:" + (" " + (id.hash + ("\n" +
            ("target_strategy_id:" + (" " + (Text(id.target) + ("\n" +
            ("parent_version_id:" + (" " + (Text(id.parent) + ("\n" +
            ("conversation_id:" + (" " + (id.conversation + ("\n" +
            ("organization_id:" + (" " + (id.organization + ("\n" +
            ("user_id:" + (" " + (id.user + ("\n" + END))))))))))))))))))))))))))))
            + ("\n" + TRAILER)))
  {
    hide Format, BEGIN, END, TRAILER;
    FormatJoined(id);
    BodyExact(id);
  }

  lemma {:induction false} MarkersExact()
    ensures BEGIN == "--- confirmation identity ---" && END == "--- end confirmation identity ---"
    ensures TRAILER == "Reply \"I confirm\" to accept " + "this exact proposal. "
                       + ("A newer draft requires " + "a new explicit confirmation.")
  {
  }

  lemma {:induction false} BodyExact(id: Identity)
    ensures BodyOf(id) ==
            ("proposal_id:" + (" " + (id.proposal + ("\n" +
            ("content_hash:" + (" " + (id.hash + ("\n" +
            ("target_strategy_id:" + (" " + (Text(id.target) + ("\n" +
            ("parent_version_id:" + (" " + (Text(id.parent) + ("\n" +
            ("conversation_id:" + (" " + (id.conversation + ("\n" +
            ("organization_id:" + (" " + (id.organization + ("\n" +
            ("user_id:" + (" " + (id.user + ("\n" + END))))))))))))))))))))))))))))
  {
    hide END;
    var f, v := FIELDS, Values(id);
    assert forall i :: 0 <= i <= 7 ==> |f[i..]| == 7 - i && |v[i..]| == 7 - i;
    BodyUnfolds(f, v, 0);
    BodyUnfolds(f, v, 1);
    BodyUnfolds(f, v, 2);
    BodyUnfolds(f, v, 3);
    BodyUnfolds(f, v, 4);
    BodyUnfolds(f, v, 5);
    BodyUnfolds(f, v, 6);
    assert Body(f[7..], v[7..]) == END;
    assert f[0..] == f && v[0..] == v;
    hide Body;
  }

  lemma {:induction false} BodyUnfolds(fields: seq<Field>, values: seq<string>, i: nat)
    requires |fields| == |values| && i < |fields|
    ensures Body(fields[i..], values[i..]) ==
            fields[i].name + (" " + (values[i] + ("\n" + Body(fields[i + 1..], values[i + 1..]))))
  {
    assert fields[i..][1..] == fields[i + 1..] && values[i..][1..] == values[i + 1..];
  }

  /** The elements of the expression, in order: marker, then label, value and white space seven times, then marker. */
  lemma {:induction false} PatternExact()
    ensures Pattern() ==
            [Lit(BEGIN)] + ([Ws] + (
            [Lit("proposal_id:")] + ([Ws] + ([Uuid] + ([Ws] + (
            [Lit("content_hash:")] + ([Ws] + ([Hash] + ([Ws] + (
            [Lit("target_strategy_id:")] + ([Ws] + ([OptionalUuid] + ([Ws] + (
            [Lit("parent_version_id:")] + ([Ws] + ([OptionalUuid] + ([Ws] + (
            [Lit("conversation_id:")] + ([Ws] + ([Uuid] + ([Ws] + (
            [Lit("organization_id:")] + ([Ws] + ([Uuid] + ([Ws] + (
            [Lit("user_id:")] + ([Ws] + ([Uuid] + ([Ws] + [Lit(END)])))))))))))))))))))))))))))))
  {
    hide BEGIN, END;
    var f := FIELDS;
    PatternUnfolds(f, 0);
    PatternUnfolds(f, 1);
    PatternUnfolds(f, 2);
    PatternUnfolds(f, 3);
    PatternUnfolds(f, 4);
    PatternUnfolds(f, 5);
    PatternUnfolds(f, 6);
    assert FieldPattern(f[7..]) == [Lit(END)];
    assert f[0..] == f;
    hide FieldPattern;
  }

  lemma {:induction false} PatternUnfolds(fields: seq<Field>, i: nat)
    requires i < |fields|
    ensures FieldPattern(fields[i..]) ==
            [Lit(fields[i].name)] + ([Ws] + ([fields[i].kind] + ([Ws] + FieldPattern(fields[i + 1..]))))
  {
    assert fields[i..][1..] == fields[i + 1..];
  }

  /** Hexadecimal digits of either case; nothing else folds to one. */
  lemma {:induction false} HexExact(c: char)
    ensures Hex(c) <==> c in DIGITS
  {
  }

  /** A letter matches itself in either case; beyond ASCII only the four folding variants match a letter. */
  lemma {:induction false} FoldExact(c: char, letter: char)
    requires 'a' <= letter <= 'z'
    ensures Fold(c) == letter <==>
            || c == letter || c as int + 32 == letter as int
            || (letter == 'i' && c in "\U{130}\U{131}") || (letter == 's' && c == '\U{17F}')
            || (letter == 'k' && c == '\U{212A}')
  {
  }

  const DIGITS: string := "0123456789abcdefABCDEF"

  ghost predicate AllHex(s: string, n: nat) {
    |s| == n && forall i :: 0 <= i < n ==> s[i] in DIGITS
  }

  /** Eight, four, four, four and twelve hexadecimal digits with dashes between. */
  lemma {:induction false} UuidExact(s: string)
    ensures IsUuid(s) <==>
            && |s| == 36 && s[8] == '-' && s[13] == '-' && s[18] == '-' && s[23] == '-'
            && AllHex(s[..8], 8) && AllHex(s[9..13], 4) && AllHex(s[14..18], 4) && AllHex(s[19..23], 4)
            && AllHex(s[24..], 12)
  {
    forall i | 0 <= i < |s| ensures Hex(s[i]) <==> s[i] in DIGITS {
      HexExact(s[i]);
    }
    hide Hex, DIGITS;
    if |s| == 36 {
      assert forall i :: 0 <= i < 8 ==> s[..8][i] == s[i];
      assert forall i :: 9 <= i < 13 ==> s[9..13][i - 9] == s[i];
      assert forall i :: 14 <= i < 18 ==> s[14..18][i - 14] == s[i];
      assert forall i :: 19 <= i < 23 ==> s[19..23][i - 19] == s[i];
      assert forall i :: 24 <= i < 36 ==> s[24..][i - 24] == s[i];
    }
  }

  lemma {:induction false} HashExact(s: string)
    ensures IsHash(s) <==> AllHex(s, 64)
  {
    forall i | 0 <= i < |s| ensures Hex(s[i]) <==> s[i] in DIGITS {
      HexExact(s[i]);
    }
    hide Hex, DIGITS;
  }

  // --- what a parsed identity looks like

  const LOWER_DIGITS: string := "0123456789abcdef"

  ghost predicate LowerUuid(s: string) {
    |s| == 36 && forall i :: 0 <= i < 36 ==> if Dash(i) then s[i] == '-' else s[i] in LOWER_DIGITS
  }

  ghost predicate LowerHash(s: string) {
    |s| == 64 && forall i :: 0 <= i < 64 ==> s[i] in LOWER_DIGITS
  }

  lemma {:induction false} LowerDigit(c: char)
    ensures Hex(c) ==> Fold(c) in LOWER_DIGITS
    ensures Fold('-') == '-'
  {
  }

  lemma {:induction false} LowerExact(s: string)
    ensures IsUuid(s) ==> LowerUuid(Lower(s))
    ensures IsHash(s) ==> LowerHash(Lower(s))
    ensures Folds(s, NONE) ==> Lower(s) == "none"
  {
    forall i | 0 <= i < |s| ensures Hex(s[i]) ==> Fold(s[i]) in LOWER_DIGITS {
      LowerDigit(s[i]);
    }
    LowerDigit('-');
    hide Hex, Fold, LOWER_DIGITS;
  }

  lemma {:induction false} GapSkips(p: seq<Elem>, s: string, i: nat)
    requires i <= |s|
    ensures MatchAt([Ws] + p, s, i) == MatchAt(p, s, SkipSpace(s, i))
  {
    assert ([Ws] + p)[1..] == p;
    hide SkipSpace;
  }

  lemma {:induction false} HeadMatches(e: Elem, p: seq<Elem>, s: string, i: nat) returns (k: nat)
    requires !e.Ws? && i <= |s| && MatchAt([e] + p, s, i).Some?
    ensures i <= k <= |s| && Accepts(e, s[i..k]) && MatchAt(p, s, k).Some?
    ensures MatchAt([e] + p, s, i).value.groups ==
            (if Captures(e) then [s[i..k]] else []) + MatchAt(p, s, k).value.groups
  {
    MatchHead([e] + p, s, i);
    TakeInside(e, s, i);
    k := i + Take(e, s, i).value;
    TakeUnique(e, s, i, k);
    hide Take, Accepts, MatchAt, SkipSpace;
    MatchSolid([e] + p, s, i, k - i);
    assert ([e] + p)[1..] == p;
  }

  /** One group for every field, each accepted by the field's kind. */
  ghost predicate GroupsFit(fields: seq<Field>, groups: seq<string>) {
    |groups| == |fields| && forall j :: 0 <= j < |fields| ==> Accepts(fields[j].kind, groups[j])
  }

  lemma {:induction false} FieldGroups(fields: seq<Field>, s: string, i: nat)
    requires i <= |s| && MatchAt(FieldPattern(fields), s, i).Some?
    requires forall j :: 0 <= j < |fields| ==> Captures(fields[j].kind)
    ensures GroupsFit(fields, MatchAt(FieldPattern(fields), s, i).value.groups)
    decreases |fields|
  {
    hide MatchAt, Accepts, SkipSpace;
    if fields == [] {
      assert FieldPattern(fields) == [Lit(END)] + [];
      var k := HeadMatches(Lit(END), [], s, i);
      NothingLeft(s, k);
    } else {
      var f, p := fields[0], FieldPattern(fields[1..]);
      var i1 := HeadMatches(Lit(f.name), [Ws] + ([f.kind] + ([Ws] + p)), s, i);
      GapSkips([f.kind] + ([Ws] + p), s, i1);
      var i2 := HeadMatches(f.kind, [Ws] + p, s, SkipSpace(s, i1));
      GapSkips(p, s, i2);
      FieldGroups(fields[1..], s, SkipSpace(s, i2));
    }
  }

  lemma {:induction false} NothingLeft(s: string, k: nat)
    requires k <= |s|
    ensures MatchAt([], s, k) == Some(Match(k, []))
  {
  }

  lemma {:induction false} LastMatchIsMatch(s: string, i: nat)
    ensures LastMatch(s, i).Some? ==>
              exists k: nat :: i <= k < |s| && MatchAt(Pattern(), s, k) == LastMatch(s, i)
    decreases |s| - i
  {
    hide MatchAt, Pattern;
    if i < |s| {
      LastMatchIsMatch(s, i + 1);
      var m := MatchAt(Pattern(), s, i);
      if m.Some? && m.value.end > i {
        LastMatchIsMatch(s, m.value.end);
      }
    }
  }

  /** Whatever the text holds, a parsed identity is canonical: lower-case digits in every field, or none. */
  lemma {:induction false} ParseCanonical(content: string)
    requires Parse(content).Some?
    ensures var id := Parse(content).value;
            && LowerUuid(id.proposal) && LowerHash(id.hash) && LowerUuid(id.conversation)
            && LowerUuid(id.organization) && LowerUuid(id.user)
            && (id.target.Some? ==> LowerUuid(id.target.value)) && (id.parent.Some? ==> LowerUuid(id.parent.value))
  {
    hide LastMatch, MatchAt, Pattern, Lower, FromGroup, LowerUuid, LowerHash, GroupsFit;
    var m := LastMatch(content, 0);
    LastMatchIsMatch(content, 0);
    var k: nat :| k < |content| && MatchAt(Pattern(), content, k) == m;
    BlockGroups(content, k);
    GroupsCanonical(m.value.groups);
  }

  lemma {:induction false} BlockGroups(s: string, i: nat)
    requires i <= |s| && MatchAt(Pattern(), s, i).Some?
    ensures GroupsFit(FIELDS, MatchAt(Pattern(), s, i).value.groups)
  {
    FieldsLabelled();
    hide MatchAt, FieldPattern, Accepts, SkipSpace, BEGIN, GroupsFit, Label, FIELDS;
    var k := HeadMatches(Lit(BEGIN), [Ws] + FieldPattern(FIELDS), s, i);
    GapSkips(FieldPattern(FIELDS), s, k);
    FieldGroups(FIELDS, s, SkipSpace(s, k));
    var g := MatchAt(FieldPattern(FIELDS), s, SkipSpace(s, k)).value.groups;
    assert [] + g == g;
  }

  lemma {:induction false} GroupsCanonical(g: seq<string>)
    requires GroupsFit(FIELDS, g)
    ensures |g| == 7 && LowerUuid(Lower(g[0])) && LowerHash(Lower(g[1])) && LowerUuid(Lower(g[4]))
    ensures LowerUuid(Lower(g[5])) && LowerUuid(Lower(g[6]))
    ensures FromGroup(g[2]).Some? ==> LowerUuid(FromGroup(g[2]).value)
    ensures FromGroup(g[3]).Some? ==> LowerUuid(FromGroup(g[3]).value)
  {
    hide LowerUuid, LowerHash, IsUuid, IsHash, Folds, Lower;
    assert Accepts(FIELDS[0].kind, g[0]) && Accepts(FIELDS[1].kind, g[1]) && Accepts(FIELDS[2].kind, g[2]);
    assert Accepts(FIELDS[3].kind, g[3]) && Accepts(FIELDS[4].kind, g[4]) && Accepts(FIELDS[5].kind, g[5]);
    assert Accepts(FIELDS[6].kind, g[6]);
    LowerExact(g[0]);
    LowerExact(g[1]);
    LowerExact(g[2]);
    LowerExact(g[3]);
    LowerExact(g[4]);
    LowerExact(g[5]);
    LowerExact(g[6]);
  }
}
