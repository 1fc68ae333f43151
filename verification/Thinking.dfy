/** Splitting a model's reply into its reasoning and its answer (dashboard/src/lib/notifications.tsx,
    parseThinking), and the printer it undoes. */
module Thinking {
  import opened Options
  import opened Text

  datatype Tags = Tags(open: string, close: string)

  const THINK := Tags("<think>", "</think>")
  const RULE := "\n\n---\n\n"

  // ---------------------------------------------------------------- strings

  /** What String.trim takes for white space. */
  predicate IsSpace(c: char) {
    var u := c as int;
    9 <= u <= 13 || u == 0x20 || u == 0xA0 || u == 0x1680 || 0x2000 <= u <= 0x200A
    || u == 0x2028 || u == 0x2029 || u == 0x202F || u == 0x205F || u == 0x3000 || u == 0xFEFF
  }

  function TrimLeft(s: string): string {
    if s != "" && IsSpace(s[0]) then TrimLeft(s[1..]) else s
  }

  function TrimRight(s: string): string {
    if s != "" && IsSpace(s[|s| - 1]) then TrimRight(s[..|s| - 1]) else s
  }

  function Trim(s: string): string { TrimRight(TrimLeft(s)) }

  datatype Halves = Halves(before: string, after: string)

  /** Around the first occurrence of `p`. */
  function Cut(s: string, p: string): (h: Option<Halves>)
    ensures h.Some? ==> s == h.value.before + p + h.value.after
    decreases |s|
  {
    if p <= s then Some(Halves("", s[|p|..]))
    else if s == "" then None
    else match Cut(s[1..], p)
      case Some(h) => assert s == s[..1] + s[1..]; Some(Halves(s[..1] + h.before, h.after))
      case None => None
  }

  /** Around the last occurrence of `p`. */
  function LastCut(s: string, p: string): (h: Option<Halves>)
    ensures h.Some? ==> s == h.value.before + p + h.value.after
    decreases |s|
  {
    if HasSuffix(s, p) then Some(Halves(s[..|s| - |p|], ""))
    else if s == "" then None
    else match LastCut(s[..|s| - 1], p)
      case Some(h) => assert s == s[..|s| - 1] + s[|s| - 1..]; Some(Halves(h.before, h.after + s[|s| - 1..]))
      case None => None
  }

  function Join(parts: seq<string>, rule: string): string {
    if parts == [] then ""
    else if |parts| == 1 then parts[0]
    else parts[0] + rule + Join(parts[1..], rule)
  }

  function Trimmed(parts: seq<string>): seq<string> {
    seq(|parts|, i requires 0 <= i < |parts| => Trim(parts[i]))
  }

  // ---------------------------------------------------------------- the parser

  datatype Block = Block(before: string, body: string, after: string)

  /** The first completed block, up to the first closing tag. */
  function FirstBlock(s: string, tags: Tags): (b: Option<Block>)
    ensures b.Some? ==> |b.value.after| + |tags.open| + |tags.close| <= |s|
  {
    match Cut(s, tags.open)
    case None => None
    case Some(h) =>
      match Cut(h.after, tags.close)
      case None => None
      case Some(k) => Some(Block(h.before, k.before, k.after))
  }

  /** Begins with the only '<' it has. */
  predicate IsTag(tag: string) { tag != "" && tag[0] == '<' && '<' !in tag[1..] }

  predicate Proper(tags: Tags) {
    && |tags.open| > 1 && |tags.close| > 1 && tags.open[1] != tags.close[1]
    && IsTag(tags.open) && IsTag(tags.close)
  }

  /** The bodies of the completed blocks, in order. */
  function Completed(s: string, tags: Tags): seq<string>
    requires Proper(tags)
    decreases |s|
  {
    match FirstBlock(s, tags)
    case None => []
    case Some(b) => [b.body] + Completed(b.after, tags)
  }

  /** What is left when the completed blocks are taken out. */
  function Stripped(s: string, tags: Tags): string
    requires Proper(tags)
    decreases |s|
  {
    match FirstBlock(s, tags)
    case None => s
    case Some(b) => b.before + Stripped(b.after, tags)
  }

  datatype Reply = Reply(thinking: string, content: string)

  /** An opening tag with no closing tag after it splits the rest in two. */
  function Settled(parts: seq<string>, content: string, tags: Tags): Reply {
    match LastCut(content, tags.open)
    case Some(h) =>
      if Cut(tags.open + h.after, tags.close).None?
      then Reply(Join(parts + [Trim(h.after)], RULE), Trim(h.before))
      else Reply(Join(parts, RULE), content)
    case None => Reply(Join(parts, RULE), content)
  }

  function Parsed(raw: string, tags: Tags): Reply
    requires Proper(tags)
  {
    Settled(Trimmed(Completed(raw, tags)), Trim(Stripped(raw, tags)), tags)
  }

  lemma ThinkIsProper()
    ensures Proper(THINK)
  {
  }

  method ParseThinking(raw: string) returns (reply: Reply)
    ensures Proper(THINK) && reply == Parsed(raw, THINK) && ShowsItsThoughts(raw, THINK, reply)
  {
    ThinkIsProper();
    reply := ParseTagged(raw, THINK);
    ReplyShowsItsThoughts(raw, THINK);
  }

  method ParseTagged(raw: string, tags: Tags) returns (reply: Reply)
    requires Proper(tags)
    ensures reply == Parsed(raw, tags)
  {
    var thinkingParts := Collect(raw, tags);
    var content := Strip(raw, tags);
    content := Trim(content);
    var lastOpen := LastCut(content, tags.open);
    if lastOpen.Some? && Cut(tags.open + lastOpen.value.after, tags.close).None? {
      thinkingParts := thinkingParts + [Trim(lastOpen.value.after)];
      content := Trim(lastOpen.value.before);
    }
    reply := Reply(Join(thinkingParts, RULE), content);
  }

  lemma TrimmedOneMore(part: string, parts: seq<string>)
    ensures Trimmed([part] + parts) == [Trim(part)] + Trimmed(parts)
  {
  }

  lemma CollectedByBlock(parts: seq<string>, rest: string, tags: Tags)
    requires Proper(tags) && FirstBlock(rest, tags).Some?
    ensures var b := FirstBlock(rest, tags).value;
            parts + Trimmed(Completed(rest, tags)) == (parts + [Trim(b.body)]) + Trimmed(Completed(b.after, tags))
  {
    var b := FirstBlock(rest, tags).value;
    TrimmedOneMore(b.body, Completed(b.after, tags));
  }

  method Collect(raw: string, tags: Tags) returns (parts: seq<string>)
    requires Proper(tags)
    ensures parts == Trimmed(Completed(raw, tags))
  {
    parts := [];
    var rest := raw;
    var block := FirstBlock(rest, tags);
    while block.Some?
      invariant block == FirstBlock(rest, tags)
      invariant Trimmed(Completed(raw, tags)) == parts + Trimmed(Completed(rest, tags))
      decreases |rest|
    {
      CollectedByBlock(parts, rest, tags);
      parts := parts + [Trim(block.value.body)];
      rest := block.value.after;
      block := FirstBlock(rest, tags);
    }
  }

  lemma StrippedByBlock(content: string, rest: string, tags: Tags)
    requires Proper(tags) && FirstBlock(rest, tags).Some?
    ensures var b := FirstBlock(rest, tags).value;
            content + Stripped(rest, tags) == (content + b.before) + Stripped(b.after, tags)
  {
    var b := FirstBlock(rest, tags).value;
    Regroup(content, b.before, Stripped(b.after, tags));
  }

  method Strip(raw: string, tags: Tags) returns (content: string)
    requires Proper(tags)
    ensures content == Stripped(raw, tags)
  {
    content := "";
    var rest := raw;
    var block := FirstBlock(rest, tags);
    while block.Some?
      invariant block == FirstBlock(rest, tags)
      invariant Stripped(raw, tags) == content + Stripped(rest, tags)
      decreases |rest|
    {
      StrippedByBlock(content, rest, tags);
      content := content + block.value.before;
      rest := block.value.after;
      block := FirstBlock(rest, tags);
    }
    content := content + rest;
  }

  // ---------------------------------------------------------------- the printer

  /** Some text and the thought that follows it. */
  datatype Turn = Turn(text: string, thought: string)

  /** A reply ends with text and, while it is being generated, perhaps inside a thought. */
  datatype Printed = Printed(turns: seq<Turn>, last: string, unfinished: Option<string>)

  function Tail(unfinished: Option<string>, tags: Tags): string {
    if unfinished.Some? then tags.open + unfinished.value else ""
  }

  function Print(turns: seq<Turn>, end: string, tags: Tags): string {
    if turns == [] then end
    else turns[0].text + (tags.open + (turns[0].thought + (tags.close + Print(turns[1..], end, tags))))
  }

  function PrintReply(p: Printed, tags: Tags): string {
    Print(p.turns, p.last + Tail(p.unfinished, tags), tags)
  }

  function Texts(turns: seq<Turn>): string {
    if turns == [] then "" else turns[0].text + Texts(turns[1..])
  }

  function Thoughts(turns: seq<Turn>): seq<string> {
    seq(|turns|, i requires 0 <= i < |turns| => turns[i].thought)
  }

  /** What was said, in one piece, and what was thought, piece by piece. */
  function AllText(p: Printed): string { Texts(p.turns) + p.last }

  function AllThoughts(p: Printed): seq<string> {
    Thoughts(p.turns) + if p.unfinished.Some? then [p.unfinished.value] else []
  }

  predicate Lacks(s: string, tag: string) { Cut(s, tag).None? }

  /** No text holds the opening tag and no thought the closing one. */
  ghost predicate Printable(p: Printed, tags: Tags) {
    && PrintableTurns(p.turns, tags)
    && Lacks(p.last, tags.open)
    && (p.unfinished.Some? ==> Lacks(p.unfinished.value, tags.close))
  }

  // ---------------------------------------------------------------- where a tag occurs

  ghost predicate OccursAt(s: string, p: string, i: int) {
    0 <= i <= |s| - |p| && s[i..i + |p|] == p
  }

  lemma {:induction false} CutFinds(s: string, p: string, i: int)
    requires OccursAt(s, p, i)
    ensures !Lacks(s, p)
    decreases i
  {
    if i > 0 && !(p <= s) {
      assert s[1..][i - 1..i - 1 + |p|] == p;
      CutFinds(s[1..], p, i - 1);
    } else if i == 0 {
      assert p <= s;
    }
  }

  lemma CutIsThere(s: string, p: string) returns (i: int)
    requires !Lacks(s, p)
    ensures OccursAt(s, p, i)
  {
    i := |Cut(s, p).value.before|;
  }

  lemma LacksPrefix(s: string, n: nat, p: string)
    requires Lacks(s, p) && n <= |s|
    ensures Lacks(s[..n], p)
  {
    if !Lacks(s[..n], p) {
      var i := CutIsThere(s[..n], p);
      assert s[i..i + |p|] == s[..n][i..i + |p|];
      CutFinds(s, p, i);
    }
  }

  /** The last occurrence is no earlier than any other. */
  lemma {:induction false} LastCutFinds(s: string, p: string, i: int)
    requires OccursAt(s, p, i)
    ensures LastCut(s, p).Some? && |LastCut(s, p).value.before| >= i
    decreases |s|
  {
    if !HasSuffix(s, p) {
      assert i + |p| != |s|;
      assert s[..|s| - 1][i..i + |p|] == s[i..i + |p|];
      LastCutFinds(s[..|s| - 1], p, i);
    }
  }

  // ---------------------------------------------------------------- searching past text

  predicate Plain(s: string) { '<' !in s }

  /** Text without the tag is passed over, if what follows begins with a tag: no occurrence straddles. */
  lemma {:induction false} CutPasses(a: string, x: string, p: string)
    requires IsTag(p) && Lacks(a, p) && (x == "" || x[0] == '<')
    ensures var h := Cut(x, p);
            Cut(a + x, p) == if h.Some? then Some(Halves(a + h.value.before, h.value.after)) else None
  {
    var h := Cut(x, p);
    if a == "" {
      assert a + x == x;
      if h.Some? { assert a + h.value.before == h.value.before; }
    } else {
      NoStraddle(a, x, p);
      CutPasses(a[1..], x, p);
      assert (a + x)[1..] == a[1..] + x && (a + x)[..1] == a[..1];
      if h.Some? {
        Regroup(a[..1], a[1..], h.value.before);
        assert a[..1] + a[1..] == a;
      }
    }
  }

  lemma NoStraddle(a: string, x: string, p: string)
    requires IsTag(p) && a != "" && Lacks(a, p) && (x == "" || x[0] == '<')
    ensures !(p <= a + x)
  {
    if |p| > |a| && x != "" {
      assert (a + x)[|a|] == '<' && p[|a|] == p[1..][|a| - 1];
    } else if |p| <= |a| {
      assert (a + x)[..|p|] == a[..|p|];
    }
  }

  lemma {:induction false} CutSkipsPlain(a: string, x: string, p: string)
    requires Plain(a) && p != "" && p[0] == '<'
    ensures var h := Cut(x, p);
            Cut(a + x, p) == if h.Some? then Some(Halves(a + h.value.before, h.value.after)) else None
  {
    var h := Cut(x, p);
    if a == "" {
      assert a + x == x;
      if h.Some? { assert a + h.value.before == h.value.before; }
    } else {
      CutSkipsPlain(a[1..], x, p);
      assert (a + x)[1..] == a[1..] + x && (a + x)[..1] == a[..1];
      assert (a + x)[0] == a[0] != p[0];
      if h.Some? {
        Regroup(a[..1], a[1..], h.value.before);
        assert a[..1] + a[1..] == a;
      }
    }
  }

  lemma CutAtStart(p: string, x: string)
    ensures Cut(p + x, p) == Some(Halves("", x))
  {
  }

  lemma Regroup(a: string, b: string, c: string)
    ensures (a + b) + c == a + (b + c)
  {
  }

  lemma PassedToTag(a: string, p: string, x: string)
    requires IsTag(p) && Lacks(a, p)
    ensures Cut(a + (p + x), p) == Some(Halves(a, x))
  {
    CutPasses(a, p + x, p);
    CutAtStart(p, x);
    assert a + "" == a;
  }

  lemma FirstTurn(t: Turn, rest: string, tags: Tags)
    requires Proper(tags) && Lacks(t.text, tags.open) && Lacks(t.thought, tags.close)
    ensures FirstBlock(t.text + (tags.open + (t.thought + (tags.close + rest))), tags) ==
              Some(Block(t.text, t.thought, rest))
  {
    PassedToTag(t.text, tags.open, t.thought + (tags.close + rest));
    PassedToTag(t.thought, tags.close, rest);
  }

  lemma EndHasNoBlock(last: string, unfinished: Option<string>, tags: Tags)
    requires Proper(tags) && Lacks(last, tags.open) && (unfinished.Some? ==> Lacks(unfinished.value, tags.close))
    ensures FirstBlock(last + Tail(unfinished, tags), tags) == None
  {
    if unfinished.Some? {
      PassedToTag(last, tags.open, unfinished.value);
    } else {
      assert last + "" == last;
    }
  }

  /** One turn off the front: its text stays, its thought is collected. */
  lemma TurnIsTakenOff(t: Turn, rest: string, tags: Tags)
    requires Proper(tags) && Lacks(t.text, tags.open) && Lacks(t.thought, tags.close)
    ensures var s := t.text + (tags.open + (t.thought + (tags.close + rest)));
            && Stripped(s, tags) == t.text + Stripped(rest, tags)
            && Completed(s, tags) == [t.thought] + Completed(rest, tags)
  {
    FirstTurn(t, rest, tags);
  }

  ghost predicate PrintableTurns(turns: seq<Turn>, tags: Tags) {
    forall t :: t in turns ==> Lacks(t.text, tags.open) && Lacks(t.thought, tags.close)
  }

  lemma {:induction false} PrintIsStripped(turns: seq<Turn>, end: string, tags: Tags)
    requires Proper(tags) && FirstBlock(end, tags) == None && PrintableTurns(turns, tags)
    ensures Stripped(Print(turns, end, tags), tags) == Texts(turns) + end
  {
    if turns == [] {
      assert "" + end == end;
    } else {
      PrintIsStripped(turns[1..], end, tags);
      TurnIsTakenOff(turns[0], Print(turns[1..], end, tags), tags);
      Regroup(turns[0].text, Texts(turns[1..]), end);
    }
  }

  lemma FirstThought(turns: seq<Turn>)
    requires turns != []
    ensures Thoughts(turns) == [turns[0].thought] + Thoughts(turns[1..])
  {
  }

  lemma {:induction false} PrintIsCollected(turns: seq<Turn>, end: string, tags: Tags)
    requires Proper(tags) && FirstBlock(end, tags) == None && PrintableTurns(turns, tags)
    ensures Completed(Print(turns, end, tags), tags) == Thoughts(turns)
  {
    if turns != [] {
      PrintIsCollected(turns[1..], end, tags);
      TurnIsTakenOff(turns[0], Print(turns[1..], end, tags), tags);
      FirstThought(turns);
    }
  }

  // ---------------------------------------------------------------- trimming

  lemma {:induction false} TrimLeftParts(s: string, x: string)
    requires x != "" && !IsSpace(x[0])
    ensures TrimLeft(s + x) == TrimLeft(s) + x
  {
    if s == "" {
      assert s + x == x;
    } else {
      TrimLeftParts(s[1..], x);
      assert (s + x)[1..] == s[1..] + x;
    }
  }

  lemma {:induction false} TrimRightParts(x: string, s: string)
    requires x != "" && !IsSpace(x[|x| - 1])
    ensures TrimRight(x + s) == x + TrimRight(s)
  {
    if s == "" {
      assert x + s == x;
    } else {
      TrimRightParts(x, s[..|s| - 1]);
      assert (x + s)[..|x + s| - 1] == x + s[..|s| - 1];
    }
  }

  lemma {:induction false} TrimForgetsRight(s: string)
    ensures Trim(TrimRight(s)) == Trim(s)
    decreases |s|
  {
    if s != "" && IsSpace(s[|s| - 1]) {
      TrimForgetsRight(s[..|s| - 1]);
      DropsLastSpace(s);
    }
  }

  lemma {:induction false} DropsLastSpace(s: string)
    requires s != "" && IsSpace(s[|s| - 1])
    ensures Trim(s[..|s| - 1]) == Trim(s)
  {
    if |s| > 1 && IsSpace(s[0]) {
      DropsLastSpace(s[1..]);
      assert s[1..][..|s| - 2] == s[..|s| - 1][1..];
    } else if |s| == 1 {
      assert s[1..] == "" && s[..0] == "";
    }
  }

  lemma {:induction false} TrimForgetsLeft(s: string)
    ensures Trim(TrimLeft(s)) == Trim(s)
  {
    if s != "" && IsSpace(s[0]) { TrimForgetsLeft(s[1..]); }
  }

  lemma TrimAroundTag(t: string, tag: string, o: string)
    requires tag != "" && !IsSpace(tag[0]) && !IsSpace(tag[|tag| - 1])
    ensures Trim(t + (tag + o)) == (TrimLeft(t) + tag) + TrimRight(o)
  {
    TrimLeftParts(t, tag + o);
    assert TrimLeft(t) + (tag + o) == (TrimLeft(t) + tag) + o;
    TrimRightParts(TrimLeft(t) + tag, o);
  }

  lemma {:induction false} TrimLeftOnce(s: string)
    ensures TrimLeft(TrimLeft(s)) == TrimLeft(s)
  {
    if s != "" && IsSpace(s[0]) { TrimLeftOnce(s[1..]); }
  }

  lemma {:induction false} TrimRightCutsOff(s: string)
    ensures |TrimRight(s)| <= |s| && TrimRight(s) == s[..|TrimRight(s)|]
  {
    if s != "" && IsSpace(s[|s| - 1]) { TrimRightCutsOff(s[..|s| - 1]); }
  }

  lemma {:induction false} TrimRightKeepsTags(s: string, tag: string, i: int)
    requires OccursAt(s, tag, i) && tag != "" && !IsSpace(tag[|tag| - 1])
    ensures OccursAt(TrimRight(s), tag, i)
  {
    if IsSpace(s[|s| - 1]) {
      assert s[i..i + |tag|][|tag| - 1] == s[i + |tag| - 1];
      assert s[..|s| - 1][i..i + |tag|] == s[i..i + |tag|];
      TrimRightKeepsTags(s[..|s| - 1], tag, i);
    }
  }

  // ---------------------------------------------------------------- the last tag

  lemma {:induction false} LastTag(t: string, tag: string, o: string)
    requires IsTag(tag) && Lacks(o, tag)
    ensures LastCut((t + tag) + o, tag) == Some(Halves(t, o))
  {
    var s := (t + tag) + o;
    if o == "" {
      assert s == t + tag && s[|s| - |tag|..] == tag && s[..|s| - |tag|] == t;
    } else {
      LacksPrefix(o, |o| - 1, tag);
      LastTag(t, tag, o[..|o| - 1]);
      assert s[..|s| - 1] == (t + tag) + o[..|o| - 1] && s[|s| - 1..] == o[|o| - 1..];
      assert o[..|o| - 1] + o[|o| - 1..] == o;
      NotASuffix(t, tag, o);
    }
  }

  lemma NotASuffix(t: string, tag: string, o: string)
    requires IsTag(tag) && Lacks(o, tag) && o != ""
    ensures !HasSuffix((t + tag) + o, tag)
  {
    var s := (t + tag) + o;
    if |o| < |tag| {
      assert s[|s| - |tag|..][0] == s[|t| + |o|] == tag[|o|] == tag[1..][|o| - 1];
    } else if HasSuffix(s, tag) {
      assert o[|o| - |tag|..|o| - |tag| + |tag|] == s[|s| - |tag|..];
      CutFinds(o, tag, |o| - |tag|);
    }
  }

  /** No closing tag begins inside an opening one. */
  lemma CloseAfterOpen(o: string, tags: Tags)
    requires Proper(tags)
    ensures Cut(tags.open + o, tags.close).Some? == Cut(o, tags.close).Some?
  {
    var s := tags.open + o;
    assert s[1] == tags.open[1] != tags.close[1];
    assert s[1..] == tags.open[1..] + o;
    CutSkipsPlain(tags.open[1..], o, tags.close);
  }

  /** Tags that trimming leaves alone. */
  predicate Solid(tags: Tags) {
    Proper(tags) && !IsSpace(tags.open[|tags.open| - 1])
  }

  lemma ThinkTagsAreSolid()
    ensures Solid(THINK) && THINK.open == "<think>" && THINK.close == "</think>"
  {
  }

  // ---------------------------------------------------------------- what trimming takes off

  lemma {:induction false} TrimLeftTakesSpaces(s: string) returns (i: nat)
    ensures i <= |s| && TrimLeft(s) == s[i..]
    ensures (forall k :: 0 <= k < i ==> IsSpace(s[k])) && (i < |s| ==> !IsSpace(s[i]))
  {
    i := 0;
    if s != "" && IsSpace(s[0]) {
      var rest := TrimLeftTakesSpaces(s[1..]);
      i := rest + 1;
      assert forall k :: 1 <= k < i ==> s[k] == s[1..][k - 1];
    }
  }

  lemma {:induction false} TrimRightTakesSpaces(s: string) returns (j: nat)
    ensures j <= |s| && TrimRight(s) == s[..j]
    ensures (forall k :: j <= k < |s| ==> IsSpace(s[k])) && (j > 0 ==> !IsSpace(s[j - 1]))
  {
    j := |s|;
    if s != "" && IsSpace(s[|s| - 1]) { j := TrimRightTakesSpaces(s[..|s| - 1]); }
  }

  /** Trimming takes white space off both ends, all of it, and nothing else. */
  lemma TrimTakesSpaces(s: string) returns (i: nat, j: nat)
    ensures i <= j <= |s| && Trim(s) == s[i..j]
    ensures forall k :: 0 <= k < |s| && !(i <= k < j) ==> IsSpace(s[k])
    ensures i < j ==> !IsSpace(s[i]) && !IsSpace(s[j - 1])
  {
    i := TrimLeftTakesSpaces(s);
    var end := TrimRightTakesSpaces(s[i..]);
    j := i + end;
    assert s[i..][..end] == s[i..j];
    forall k | j <= k < |s| ensures IsSpace(s[k]) { assert s[i..][k - i] == s[k]; }
    if i < j { assert s[i..][end - 1] == s[j - 1]; }
  }

  lemma SpacesAndLetters(c: char)
    ensures c in " \t\n\r" ==> IsSpace(c)
    ensures 33 <= c as int <= 126 ==> !IsSpace(c)
    ensures IsSpace(c) <==>
              c as int in {9, 10, 11, 12, 13, 32, 160, 5760, 8192, 8193, 8194, 8195, 8196, 8197, 8198, 8199, 8200, 8201,
                           8202, 8232, 8233, 8239, 8287, 12288, 65279}
  {
  }

  // ---------------------------------------------------------------- thoughts in one text

  /** Where part i begins: behind the earlier parts, each with seven characters after it. */
  function Offset(parts: seq<string>, i: nat): nat
    requires i <= |parts|
  {
    if i == 0 then 0 else Offset(parts, i - 1) + |parts[i - 1]| + 7
  }

  ghost predicate ShowsPart(s: string, parts: seq<string>, i: nat)
    requires i < |parts|
  {
    var at := Offset(parts, i);
    at + |parts[i]| <= |s| && s[at..at + |parts[i]|] == parts[i]
  }

  ghost predicate ShowsRule(s: string, parts: seq<string>, i: nat)
    requires i < |parts|
  {
    var at := Offset(parts, i);
    7 <= at <= |s| && s[at - 7..at] == "\n\n---\n\n"
  }

  /** The text is the parts in order, with a rule between each two, and nothing else. */
  ghost predicate Shows(s: string, parts: seq<string>) {
    && |s| == (if parts == [] then 0 else Offset(parts, |parts|) - 7)
    && (forall i :: 0 <= i < |parts| ==> ShowsPart(s, parts, i))
    && (forall i :: 0 < i < |parts| ==> ShowsRule(s, parts, i))
  }

  lemma {:induction false} OffsetFurtherOn(part: string, parts: seq<string>, i: nat)
    requires i <= |parts|
    ensures Offset([part] + parts, i + 1) == |part| + 7 + Offset(parts, i)
  {
    if i > 0 {
      OffsetFurtherOn(part, parts, i - 1);
      assert ([part] + parts)[i] == parts[i - 1];
    }
  }

  lemma SliceFurtherOn(head: string, s: string, lo: nat, hi: nat)
    requires lo <= hi <= |s|
    ensures (head + s)[|head| + lo..|head| + hi] == s[lo..hi]
  {
  }

  lemma ShowsPartFurtherOn(part: string, s: string, parts: seq<string>, i: nat)
    requires i < |parts| && ShowsPart(s, parts, i)
    ensures ShowsPart(part + RULE + s, [part] + parts, i + 1)
  {
    OffsetFurtherOn(part, parts, i);
    SliceFurtherOn(part + RULE, s, Offset(parts, i), Offset(parts, i) + |parts[i]|);
    assert ([part] + parts)[i + 1] == parts[i];
  }

  lemma ShowsRuleFurtherOn(part: string, s: string, parts: seq<string>, i: nat)
    requires 0 < i < |parts| && ShowsRule(s, parts, i)
    ensures ShowsRule(part + RULE + s, [part] + parts, i + 1)
  {
    OffsetFurtherOn(part, parts, i);
    SliceFurtherOn(part + RULE, s, Offset(parts, i) - 7, Offset(parts, i));
  }

  lemma ShowsFirst(part: string, s: string, parts: seq<string>)
    requires parts != []
    ensures ShowsPart(part + RULE + s, [part] + parts, 0) && ShowsRule(part + RULE + s, [part] + parts, 1)
  {
    var text, all := part + RULE + s, [part] + parts;
    OffsetFurtherOn(part, parts, 0);
    assert text[0..|part|] == part && text[|part|..|part| + 7] == RULE;
  }

  lemma ShowsOneMore(part: string, s: string, parts: seq<string>)
    requires parts != [] && Shows(s, parts)
    ensures Shows(part + RULE + s, [part] + parts)
  {
    var all, text := [part] + parts, part + RULE + s;
    OffsetFurtherOn(part, parts, |parts|);
    ShowsFirst(part, s, parts);
    forall i | 0 <= i < |all| ensures ShowsPart(text, all, i) {
      if i > 0 { ShowsPartFurtherOn(part, s, parts, i - 1); }
    }
    forall i | 0 < i < |all| ensures ShowsRule(text, all, i) {
      if i > 1 { ShowsRuleFurtherOn(part, s, parts, i - 1); }
    }
  }

  lemma {:induction false} JoinShows(parts: seq<string>)
    ensures Shows(Join(parts, RULE), parts)
  {
    if |parts| == 1 {
      assert parts[0][0..|parts[0]|] == parts[0];
      assert Offset(parts, 1) == |parts[0]| + 7;
    } else if |parts| > 1 {
      JoinShows(parts[1..]);
      ShowsOneMore(parts[0], Join(parts[1..], RULE), parts[1..]);
      assert [parts[0]] + parts[1..] == parts;
    }
  }

  /** The offset a position belongs to. */
  lemma {:induction false} SomePart(parts: seq<string>, n: nat, k: nat) returns (i: nat)
    requires n <= |parts| && k < Offset(parts, n)
    ensures i < n && Offset(parts, i) <= k < Offset(parts, i + 1)
  {
    if k >= Offset(parts, n - 1) { i := n - 1; } else { i := SomePart(parts, n - 1, k); }
  }

  lemma SameCharacter(s: string, t: string, parts: seq<string>, k: nat)
    requires Shows(s, parts) && Shows(t, parts) && k < |s| == |t|
    ensures s[k] == t[k]
  {
    var i := SomePart(parts, |parts|, k);
    var at := Offset(parts, i);
    assert ShowsPart(s, parts, i) && ShowsPart(t, parts, i);
    if k < at + |parts[i]| {
      assert s[at..at + |parts[i]|][k - at] == t[at..at + |parts[i]|][k - at];
    } else if i + 1 < |parts| {
      var next := Offset(parts, i + 1);
      assert ShowsRule(s, parts, i + 1) && ShowsRule(t, parts, i + 1);
      assert s[next - 7..next][k - (next - 7)] == t[next - 7..next][k - (next - 7)];
    }
  }

  /** Only one text shows the parts. */
  lemma ShowsOneText(s: string, t: string, parts: seq<string>)
    requires Shows(s, parts) && Shows(t, parts)
    ensures s == t
  {
    forall k | 0 <= k < |s| ensures s[k] == t[k] { SameCharacter(s, t, parts, k); }
  }

  lemma JoinedExactlyWhen(s: string, parts: seq<string>)
    ensures s == Join(parts, RULE) <==> Shows(s, parts)
  {
    JoinShows(parts);
    if Shows(s, parts) { ShowsOneText(s, Join(parts, RULE), parts); }
  }

  /** The reply's thinking shows the bodies of the completed blocks, trimmed, and after them the thought an opening
      tag without a closing one leaves unfinished; its content is the rest. */
  ghost predicate ShowsItsThoughts(raw: string, tags: Tags, reply: Reply)
    requires Proper(tags)
  {
    var thoughts, left := Trimmed(Completed(raw, tags)), Trim(Stripped(raw, tags));
    match LastCut(left, tags.open)
    case Some(h) =>
      if Lacks(tags.open + h.after, tags.close)
      then Shows(reply.thinking, thoughts + [Trim(h.after)]) && reply.content == Trim(h.before)
      else Shows(reply.thinking, thoughts) && reply.content == left
    case None => Shows(reply.thinking, thoughts) && reply.content == left
  }

  lemma ReplyShowsItsThoughts(raw: string, tags: Tags)
    requires Proper(tags)
    ensures ShowsItsThoughts(raw, tags, Parsed(raw, tags))
  {
    var thoughts, left := Trimmed(Completed(raw, tags)), Trim(Stripped(raw, tags));
    JoinShows(thoughts);
    match LastCut(left, tags.open)
    case Some(h) => JoinShows(thoughts + [Trim(h.after)]);
    case None =>
  }

  /** Of one thought the text is that thought, of two the first, the rule and the second. */
  lemma ShowsOneOrTwo(s: string, a: string, b: string)
    ensures Shows(s, [a]) <==> s == a
    ensures Shows(s, [a, b]) <==> s == a + "\n\n---\n\n" + b
  {
    JoinedExactlyWhen(s, [a]);
    JoinedExactlyWhen(s, [a, b]);
    assert [a, b][1..] == [b];
  }

  // ---------------------------------------------------------------- reading the thoughts back

  /** String.split at the rule. */
  function SplitAtRules(s: string): seq<string>
    decreases |s|
  {
    match Cut(s, "\n\n---\n\n")
    case None => [s]
    case Some(h) => [h.before] + SplitAtRules(h.after)
  }

  /** The first occurrence is no later than any other. */
  lemma {:induction false} CutIsFirst(s: string, p: string, i: int)
    requires OccursAt(s, p, i)
    ensures Cut(s, p).Some? && |Cut(s, p).value.before| <= i
    decreases i
  {
    if !(p <= s) {
      assert i > 0;
      assert s[1..][i - 1..i - 1 + |p|] == p;
      CutIsFirst(s[1..], p, i - 1);
    }
  }

  /** Nothing to trim off its end. */
  predicate Tight(a: string) { a == "" || !IsSpace(a[|a| - 1]) }

  predicate EndsInDashes(a: string) { HasSuffix(a, "\n\n---") }

  /** A rule that begins in a part and ends behind it needs the dashes in the part. */
  lemma StraddlingRule(a: string, x: string, j: int)
    requires Tight(a) && OccursAt(a + RULE + x, RULE, j) && j < |a| < j + 7
    ensures EndsInDashes(a)
  {
    var s, t := a + RULE + x, |a| - j;
    assert forall k :: 0 <= k < 7 ==> s[j + k] == s[j..j + 7][k] == RULE[k];
    assert a[|a| - 1] == RULE[t - 1];
    assert t in {3, 4, 5};
    assert s[|a|] == RULE[0] == RULE[t];
    assert t == 5;
    assert RULE[..5] == "\n\n---";
    assert a[|a| - 5..] == s[j..j + 7][..5];
  }

  lemma RuleFoundInPart(a: string, x: string)
    requires !Lacks(a, RULE)
    ensures var h := Cut(a + RULE + x, RULE); h.Some? && |h.value.before| < |a|
  {
    var j := CutIsThere(a, RULE);
    assert (a + RULE + x)[j..j + 7] == a[j..j + 7];
    CutIsFirst(a + RULE + x, RULE, j);
  }

  lemma RuleFoundInDashes(a: string, x: string)
    requires EndsInDashes(a)
    ensures var h := Cut(a + RULE + x, RULE); h.Some? && |h.value.before| < |a|
  {
    var s, j := a + RULE + x, |a| - 5;
    assert s[j..j + 7] == a[j..] + "\n\n";
    CutIsFirst(s, RULE, j);
  }

  lemma NoEarlierRule(a: string, x: string, j: int)
    requires Tight(a) && Lacks(a, RULE) && !EndsInDashes(a) && OccursAt(a + RULE + x, RULE, j)
    ensures j >= |a|
  {
    if j + 7 <= |a| {
      assert a[j..j + 7] == (a + RULE + x)[j..j + 7];
      CutFinds(a, RULE, j);
    } else if j < |a| {
      StraddlingRule(a, x, j);
    }
  }

  lemma RuleAt(a: string, x: string)
    ensures OccursAt(a + RULE + x, RULE, |a|)
  {
    assert (a + RULE + x)[|a|..|a| + 7] == RULE;
  }

  lemma CutStart(s: string, p: string)
    requires Cut(s, p).Some?
    ensures var h := Cut(s, p).value; OccursAt(s, p, |h.before|) && h.before == s[..|h.before|]
    ensures var h := Cut(s, p).value; h.after == s[|h.before| + |p|..]
  {
    var h := Cut(s, p).value;
    assert (h.before + p + h.after)[|h.before|..|h.before| + |p|] == p;
  }

  lemma RuleFoundBehind(a: string, x: string)
    requires Tight(a) && Lacks(a, RULE) && !EndsInDashes(a)
    ensures Cut(a + RULE + x, RULE) == Some(Halves(a, x))
  {
    var s := a + RULE + x;
    RuleAt(a, x);
    CutIsFirst(s, RULE, |a|);
    CutStart(s, RULE);
    NoEarlierRule(a, x, |Cut(s, RULE).value.before|);
    assert s[..|a|] == a && s[|a| + 7..] == x;
  }

  /** No part holds a rule, and none but the last ends in what would complete one. */
  ghost predicate Separable(parts: seq<string>) {
    && (forall i :: 0 <= i < |parts| ==> Lacks(parts[i], "\n\n---\n\n"))
    && (forall i :: 0 <= i < |parts| - 1 ==> !HasSuffix(parts[i], "\n\n---"))
  }

  lemma SeparableFromFirst(parts: seq<string>)
    requires |parts| > 1
    ensures Separable(parts) <==> Lacks(parts[0], RULE) && !EndsInDashes(parts[0]) && Separable(parts[1..])
  {
    var rest := parts[1..];
    assert forall i :: 0 <= i < |rest| ==> rest[i] == parts[i + 1];
    if Lacks(parts[0], RULE) && !EndsInDashes(parts[0]) && Separable(rest) {
      forall i | 0 <= i < |parts| ensures Lacks(parts[i], RULE) { assert i > 0 ==> parts[i] == rest[i - 1]; }
      forall i | 0 <= i < |parts| - 1 ensures !EndsInDashes(parts[i]) { assert i > 0 ==> parts[i] == rest[i - 1]; }
    }
    if Separable(parts) {
      forall i | 0 <= i < |rest| ensures Lacks(rest[i], RULE) { assert rest[i] == parts[i + 1]; }
      forall i | 0 <= i < |rest| - 1 ensures !EndsInDashes(rest[i]) { assert rest[i] == parts[i + 1]; }
    }
  }

  lemma FirstPartReadBack(a: string, x: string)
    requires Tight(a)
    ensures var split := SplitAtRules(a + RULE + x);
            if Lacks(a, RULE) && !EndsInDashes(a) then split == [a] + SplitAtRules(x) else split[0] != a
  {
    if Lacks(a, RULE) && !EndsInDashes(a) {
      RuleFoundBehind(a, x);
    } else if Lacks(a, RULE) {
      RuleFoundInDashes(a, x);
    } else {
      RuleFoundInPart(a, x);
    }
  }

  lemma {:induction false} JoinIsSplitBackExactlyWhen(parts: seq<string>)
    requires parts != [] && forall p :: p in parts ==> Tight(p)
    ensures SplitAtRules(Join(parts, RULE)) == parts <==> Separable(parts)
  {
    if |parts| == 1 {
      assert parts == [parts[0]];
      if !Lacks(parts[0], RULE) { assert |SplitAtRules(parts[0])| > 1; }
    } else {
      JoinIsSplitBackExactlyWhen(parts[1..]);
      FirstPartReadBack(parts[0], Join(parts[1..], RULE));
      SeparableFromFirst(parts);
      SameRest(parts, SplitAtRules(Join(parts[1..], RULE)));
    }
  }

  lemma SameRest(parts: seq<string>, rest: seq<string>)
    requires parts != []
    ensures [parts[0]] + rest == parts <==> rest == parts[1..]
  {
    assert ([parts[0]] + rest)[1..] == rest;
    assert parts == [parts[0]] + parts[1..];
  }

  lemma TrimmedIsTight(s: string)
    ensures Tight(Trim(s))
  {
    var i, j := TrimTakesSpaces(s);
  }

  /** The thoughts are read back from a text that shows them, by splitting it at the rules, exactly when none
      of them holds a rule and none but the last ends in the first five characters of one. */
  lemma ThoughtsAreReadBackExactlyWhen(s: string, thoughts: seq<string>)
    requires thoughts != [] && Shows(s, Trimmed(thoughts))
    ensures SplitAtRules(s) == Trimmed(thoughts) <==> Separable(Trimmed(thoughts))
  {
    var parts := Trimmed(thoughts);
    forall p | p in parts ensures Tight(p) {
      var i :| 0 <= i < |parts| && parts[i] == p;
      TrimmedIsTight(thoughts[i]);
    }
    JoinedExactlyWhen(s, parts);
    JoinIsSplitBackExactlyWhen(parts);
  }

  /** Such a thought: it takes the rule behind it along. */
  lemma DashesSwallowTheRule(a: string, b: string)
    requires Tight(a) && Lacks(a, RULE) && !EndsInDashes(a) && Tight(b)
    ensures var parts := [a + "\n\n---", b];
            forall s :: Shows(s, parts) ==> SplitAtRules(s)[0] == a
  {
    var parts := [a + "\n\n---", b];
    forall s | Shows(s, parts) ensures SplitAtRules(s)[0] == a {
      JoinedExactlyWhen(s, parts);
      assert parts[1..] == [b];
      var x := "---\n\n" + b;
      assert Join(parts, RULE) == a + RULE + x;
      FirstPartReadBack(a, x);
    }
  }

  // ---------------------------------------------------------------- the round trip

  /** Text with an opening tag and, after the last one, no closing tag looks like a thought in the making. */
  predicate LooksUnfinished(content: string, tags: Tags) {
    var h := LastCut(content, tags.open);
    h.Some? && Lacks(h.value.after, tags.close)
  }

  lemma FinishedIsKeptExactlyWhen(parts: seq<string>, content: string, tags: Tags)
    requires Solid(tags)
    ensures var settled := Settled(parts, Trim(content), tags);
            settled == Reply(Join(parts, RULE), Trim(content)) <==> !LooksUnfinished(Trim(content), tags)
  {
    var h := LastCut(Trim(content), tags.open);
    if h.Some? {
      CloseAfterOpen(h.value.after, tags);
      TrimIsShorter(h.value.before);
    }
  }

  lemma TrimIsShorter(s: string)
    ensures |Trim(s)| <= |s|
  {
    TrimRightCutsOff(TrimLeft(s));
    TrimLeftIsShorter(s);
  }

  lemma {:induction false} TrimLeftIsShorter(s: string)
    ensures |TrimLeft(s)| <= |s|
  {
    if s != "" { TrimLeftIsShorter(s[1..]); }
  }

  lemma UnfinishedIsSplit(parts: seq<string>, said: string, o: string, tags: Tags)
    requires Solid(tags) && Lacks(o, tags.open) && Lacks(o, tags.close)
    ensures Settled(parts, Trim(said + (tags.open + o)), tags) == Reply(Join(parts + [Trim(o)], RULE), Trim(said))
  {
    TrimAroundTag(said, tags.open, o);
    TrimRightCutsOff(o);
    LacksPrefix(o, |TrimRight(o)|, tags.open);
    LacksPrefix(o, |TrimRight(o)|, tags.close);
    LastTag(TrimLeft(said), tags.open, TrimRight(o));
    CloseAfterOpen(TrimRight(o), tags);
    TrimForgetsRight(o);
    TrimForgetsLeft(said);
  }

  lemma MoreThanWasSaid(said: string, w: string, tags: Tags)
    requires Solid(tags)
    ensures Trim((TrimLeft(said) + tags.open) + w) != Trim(said)
  {
    var left := TrimLeft(said);
    Regroup(left, tags.open, w);
    TrimAroundTag(left, tags.open, w);
    TrimLeftOnce(said);
    TrimRightCutsOff(left);
  }

  lemma TrimmedKeepsATag(o: string, tag: string) returns (i: int)
    requires !Lacks(o, tag) && tag != "" && !IsSpace(tag[|tag| - 1])
    ensures OccursAt(TrimRight(o), tag, i)
  {
    i := CutIsThere(o, tag);
    TrimRightKeepsTags(o, tag, i);
  }

  /** The last opening tag is inside the unfinished thought, if that has one. */
  lemma LastTagIsInside(head: string, o: string, tag: string)
    requires !Lacks(o, tag) && tag != "" && !IsSpace(tag[|tag| - 1])
    ensures var h := LastCut(head + TrimRight(o), tag);
            h.Some? && |h.value.before| >= |head| && h.value.before[..|head|] == head
  {
    var i := TrimmedKeepsATag(o, tag);
    LastTagAfter(head, TrimRight(o), tag, i);
    CutStartsWith(head, TrimRight(o), tag);
  }

  lemma LastTagAfter(head: string, s: string, tag: string, i: int)
    requires OccursAt(s, tag, i)
    ensures var h := LastCut(head + s, tag); h.Some? && |h.value.before| >= |head|
  {
    OccursFurtherOn(head, s, tag, i);
    LastCutFinds(head + s, tag, |head| + i);
  }

  lemma CutStartsWith(head: string, right: string, tag: string)
    requires LastCut(head + right, tag).Some? && |LastCut(head + right, tag).value.before| >= |head|
    ensures LastCut(head + right, tag).value.before[..|head|] == head
  {
    var h := LastCut(head + right, tag).value;
    StartsWith(head, right, h.before, tag + h.after);
    Regroup(h.before, tag, h.after);
  }

  lemma OccursFurtherOn(head: string, s: string, tag: string, i: int)
    requires OccursAt(s, tag, i)
    ensures OccursAt(head + s, tag, |head| + i)
  {
    assert (head + s)[|head| + i..|head| + i + |tag|] == s[i..i + |tag|];
  }

  lemma StartsWith(a: string, x: string, b: string, y: string)
    requires |b| >= |a|
    ensures a + x == b + y ==> b[..|a|] == a
  {
    assert (a + x)[..|a|] == a && (b + y)[..|a|] == b[..|a|];
  }

  lemma SettledContent(parts: seq<string>, content: string, tags: Tags)
    ensures var settled, h := Settled(parts, content, tags).content, LastCut(content, tags.open);
            settled == content || (h.Some? && settled == Trim(h.value.before))
  {
  }

  lemma TakenOff(head: string, s: string)
    requires |s| >= |head| && s[..|head|] == head
    ensures s == head + s[|head|..]
  {
  }

  lemma SplitFurtherOn(said: string, o: string, tags: Tags)
    requires Solid(tags) && !Lacks(o, tags.open)
    ensures var h := LastCut((TrimLeft(said) + tags.open) + TrimRight(o), tags.open);
            h.Some? && Trim(h.value.before) != Trim(said)
  {
    var head := TrimLeft(said) + tags.open;
    LastTagIsInside(head, o, tags.open);
    var before := LastCut(head + TrimRight(o), tags.open).value.before;
    TakenOff(head, before);
    MoreThanWasSaid(said, before[|head|..], tags);
  }

  /** A second opening tag in the unfinished thought takes the first for text. */
  lemma NestedIsNotSplit(parts: seq<string>, said: string, o: string, tags: Tags)
    requires Solid(tags) && !Lacks(o, tags.open)
    ensures Settled(parts, Trim(said + (tags.open + o)), tags).content != Trim(said)
  {
    TrimAroundTag(said, tags.open, o);
    SettledContent(parts, (TrimLeft(said) + tags.open) + TrimRight(o), tags);
    SplitFurtherOn(said, o, tags);
    NothingLostAround(said, o, tags);
  }

  lemma NothingLostAround(said: string, o: string, tags: Tags)
    requires Solid(tags)
    ensures (TrimLeft(said) + tags.open) + TrimRight(o) != Trim(said)
  {
    TrimRightCutsOff(TrimLeft(said));
  }

  lemma PrintIsTakenApart(p: Printed, tags: Tags)
    requires Proper(tags) && Printable(p, tags)
    ensures Stripped(PrintReply(p, tags), tags) == AllText(p) + Tail(p.unfinished, tags)
    ensures Completed(PrintReply(p, tags), tags) == Thoughts(p.turns)
  {
    var end := p.last + Tail(p.unfinished, tags);
    EndHasNoBlock(p.last, p.unfinished, tags);
    PrintIsStripped(p.turns, end, tags);
    PrintIsCollected(p.turns, end, tags);
    Regroup(Texts(p.turns), p.last, Tail(p.unfinished, tags));
  }

  function Back(p: Printed): Reply { Reply(Join(Trimmed(AllThoughts(p)), RULE), Trim(AllText(p))) }

  lemma FinishedThoughts(p: Printed, tags: Tags)
    requires p.unfinished.None?
    ensures AllText(p) + Tail(p.unfinished, tags) == AllText(p) && AllThoughts(p) == Thoughts(p.turns)
  {
  }

  lemma UnfinishedThoughts(p: Printed)
    requires p.unfinished.Some?
    ensures Trimmed(AllThoughts(p)) == Trimmed(Thoughts(p.turns)) + [Trim(p.unfinished.value)]
  {
  }

  lemma FinishedComesBackExactlyWhen(p: Printed, tags: Tags)
    requires Solid(tags) && p.unfinished.None?
    ensures Settled(Trimmed(Thoughts(p.turns)), Trim(AllText(p) + Tail(p.unfinished, tags)), tags) == Back(p) <==>
              !LooksUnfinished(Trim(AllText(p)), tags)
  {
    FinishedThoughts(p, tags);
    FinishedIsKeptExactlyWhen(Trimmed(Thoughts(p.turns)), AllText(p), tags);
  }

  lemma UnfinishedComesBackExactlyWhen(p: Printed, tags: Tags)
    requires Solid(tags) && p.unfinished.Some? && Lacks(p.unfinished.value, tags.close)
    ensures Settled(Trimmed(Thoughts(p.turns)), Trim(AllText(p) + Tail(p.unfinished, tags)), tags) == Back(p) <==>
              Lacks(p.unfinished.value, tags.open)
  {
    UnfinishedThoughts(p);
    if Lacks(p.unfinished.value, tags.open) {
      UnfinishedIsSplit(Trimmed(Thoughts(p.turns)), AllText(p), p.unfinished.value, tags);
    } else {
      NestedIsNotSplit(Trimmed(Thoughts(p.turns)), AllText(p), p.unfinished.value, tags);
    }
  }

  /** Parsing undoes printing - the thoughts come back trimmed and in order, the text trimmed and in one
      piece - exactly when the text does not look unfinished itself or, inside a thought, when that holds
      no opening tag. */
  lemma ParseUndoesPrintExactlyWhen(p: Printed, tags: Tags)
    requires Solid(tags) && Printable(p, tags)
    ensures var reply := Parsed(PrintReply(p, tags), tags);
            Shows(reply.thinking, Trimmed(AllThoughts(p))) && reply.content == Trim(AllText(p)) <==>
              if p.unfinished.Some? then Lacks(p.unfinished.value, tags.open)
              else !LooksUnfinished(Trim(AllText(p)), tags)
  {
    JoinedExactlyWhen(Parsed(PrintReply(p, tags), tags).thinking, Trimmed(AllThoughts(p)));
    PrintIsTakenApart(p, tags);
    if p.unfinished.Some? {
      UnfinishedComesBackExactlyWhen(p, tags);
    } else {
      FinishedComesBackExactlyWhen(p, tags);
    }
  }

  /** Text that holds no '<' never looks unfinished. */
  lemma PlainTextComesBack(p: Printed, tags: Tags)
    requires Solid(tags) && Printable(p, tags) && Plain(AllText(p))
               && (p.unfinished.Some? ==> Plain(p.unfinished.value))
    ensures var reply := Parsed(PrintReply(p, tags), tags);
            Shows(reply.thinking, Trimmed(AllThoughts(p))) && reply.content == Trim(AllText(p))
  {
    ParseUndoesPrintExactlyWhen(p, tags);
    if p.unfinished.Some? {
      PlainLacks(p.unfinished.value, tags.open);
    } else {
      TrimmedIsPart(AllText(p));
      PlainHasNoLast(Trim(AllText(p)), tags.open);
    }
  }

  lemma PlainLacks(s: string, tag: string)
    requires Plain(s) && IsTag(tag)
    ensures Lacks(s, tag)
  {
    CutSkipsPlain(s, "", tag);
    assert s + "" == s;
  }

  lemma PlainHasNoLast(s: string, tag: string)
    requires Plain(s) && IsTag(tag)
    ensures LastCut(s, tag).None?
  {
  }

  lemma TrimmedIsPart(s: string)
    ensures forall c :: c in Trim(s) ==> c in s
  {
    TrimRightCutsOff(TrimLeft(s));
    TrimLeftIsPart(s);
  }

  lemma {:induction false} TrimLeftIsPart(s: string)
    ensures forall c :: c in TrimLeft(s) ==> c in s
  {
    if s != "" { TrimLeftIsPart(s[1..]); }
  }

  lemma StrayThenRest(rest: string, tags: Tags)
    requires Proper(tags) && Lacks(rest, tags.open)
    ensures Lacks(tags.open[1..] + rest, tags.open)
    ensures "<" + (tags.open[1..] + rest) == "" + (tags.open + rest)
  {
    CutSkipsPlain(tags.open[1..], rest, tags.open);
    Regroup("<", tags.open[1..], rest);
    assert "<" + tags.open[1..] == tags.open;
    assert "" + (tags.open + rest) == tags.open + rest;
  }

  lemma StrayIsNoTag(tags: Tags)
    requires Proper(tags)
    ensures Lacks("<", tags.open)
  {
  }

  lemma OneTurn(text: string, thought: string, last: string, tags: Tags)
    ensures var p := Printed([Turn(text, thought)], last, None);
            AllText(p) + Tail(p.unfinished, tags) == text + last && Trimmed(Thoughts(p.turns)) == [Trim(thought)]
  {
    assert Texts([Turn(text, thought)]) == text;
  }

  /** Taking a block out can bring the halves of another tag together: what was plain text after
      a stray '<' and a block then counts as an unfinished thought. */
  lemma RemovalCanFormATag(body: string, rest: string, tags: Tags)
    requires Solid(tags) && Lacks(body, tags.close) && Lacks(rest, tags.open) && Lacks(rest, tags.close)
    ensures var p := Printed([Turn("<", body)], tags.open[1..] + rest, None);
            var reply := Parsed(PrintReply(p, tags), tags);
            Printable(p, tags) && reply.content == "" && Shows(reply.thinking, [Trim(body), Trim(rest)])
  {
    var p := Printed([Turn("<", body)], tags.open[1..] + rest, None);
    StrayThenRest(rest, tags);
    StrayIsNoTag(tags);
    PrintIsTakenApart(p, tags);
    OneTurn("<", body, tags.open[1..] + rest, tags);
    UnfinishedIsSplit([Trim(body)], "", rest, tags);
    assert [Trim(body)] + [Trim(rest)] == [Trim(body), Trim(rest)];
    JoinShows([Trim(body), Trim(rest)]);
  }
}
