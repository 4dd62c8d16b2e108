/** Substituting a draft into an exported reviewer prompt, and the item identifiers read back from it. */
module ReplayContract {
  import opened Wrappers
  import opened Text

  datatype Message = Message(role: string, content: string)

  datatype Draft = Draft(title: string, meta: string, body: string)

  datatype Error = NativeRolesRequired | ReviewerAnchorMismatch | ReviewerItemsUnavailable

  const HEADER: string := "\n## Draft evidence\n"
  const HEAD: string := "\n## Draft evidence\nTitle: "
  const MIDDLE: string := "\nMeta description: "
  const END: string := "\n" + ("Draft metadata does not redefine " + "the brief's promise.\n")
  const BRIEF: string := "\n## The promise (from the brief)\n"
  const DRAFT: string := "\n## The draft\n"
  const GAP: string := "\n\n\n"
  const ITEMS: string := "\n## Items\n"
  const ITEM: string := "- item_id: "

  predicate NativeMessages(messages: seq<Message>) {
    && |messages| == 2 && messages[0].role == "system" && messages[1].role == "user"
    && messages[0].content != [] && messages[1].content != []
  }

  function Block(title: string, meta: string): string {
    HEAD + (title + (MIDDLE + (meta + END)))
  }

  function Anchor(body: string): string {
    DRAFT + (body + (GAP + ITEMS))
  }

  function Shown(meta: string): string {
    if Strip(meta) != "" then meta else "not provided"
  }

  // ----- finding the anchors -----------------------------------------------------------------

  /** Where the evidence block of one match lies: its title and its meta line end at `titleEnd` and `metaEnd`. */
  datatype Found = Found(start: nat, titleEnd: nat, metaEnd: nat)

  function End(f: Found): nat { f.metaEnd + |END| }

  /** The pattern's match at `i`, its two lines being whatever stands before the next line breaks. */
  function MatchAt(text: string, i: nat): (r: Option<Found>)
    requires i <= |text|
    ensures r.Some? ==> IsMatch(text, r.value) && r.value.start == i
  {
    if !At(text, HEAD, i) then None
    else
      var titleEnd := LineEnd(text, i + |HEAD|);
      if !At(text, MIDDLE, titleEnd) then None
      else
        var metaEnd := LineEnd(text, titleEnd + |MIDDLE|);
        if !At(text, END, metaEnd) then None else Some(Found(i, titleEnd, metaEnd))
  }

  predicate IsMatch(text: string, f: Found) {
    && f.start + |HEAD| <= f.titleEnd && f.titleEnd + |MIDDLE| <= f.metaEnd && End(f) <= |text|
    && At(text, HEAD, f.start) && At(text, MIDDLE, f.titleEnd) && At(text, END, f.metaEnd)
    && OneLine(text[f.start + |HEAD|..f.titleEnd]) && OneLine(text[f.titleEnd + |MIDDLE|..f.metaEnd])
  }

  /** All matches from left to right, each search going on behind the last match. */
  function Matches(text: string, from: nat): (all: seq<Found>)
    requires from <= |text|
    ensures forall f | f in all :: IsMatch(text, f)
    decreases |text| - from
  {
    var here := MatchAt(text, from);
    if here.Some? then [here.value] + Matches(text, End(here.value))
    else if from == |text| then []
    else Matches(text, from + 1)
  }

  /** The evidence block and the start of the draft anchor, if every anchor is there once and in template order. */
  function Cuts(text: string, exported: string): (r: Option<(Found, nat)>)
    ensures r.Some? ==>
      IsMatch(text, r.value.0) && End(r.value.0) <= r.value.1 && At(text, Anchor(exported), r.value.1)
  {
    var found := Matches(text, 0);
    if Occurrences(text, Anchor(exported), 0) != 1 || Occurrences(text, BRIEF, 0) != 1
      || Occurrences(text, HEADER, 0) != 1 || |found| != 1
    then None
    else
      var start, brief := Index(text, Anchor(exported), 0), Index(text, BRIEF, 0);
      if start.None? || brief.None? then None
      else if !(brief.value < found[0].start < End(found[0]) <= start.value) then None
      else Some((found[0], start.value))
  }

  function Splice(text: string, exported: string, draft: Draft): Result<string, Error> {
    match Cuts(text, exported)
    case None => Err(ReviewerAnchorMismatch)
    case Some((found, start)) =>
      Ok(text[..found.start] + Block(draft.title, Shown(draft.meta)) + text[End(found)..start] + DRAFT + draft.body
         + GAP + ITEMS + text[start + |Anchor(exported)|..])
  }

  function ReviewerMessages(messages: seq<Message>, exported: string, draft: Draft): Result<seq<Message>, Error> {
    if !NativeMessages(messages) then Err(NativeRolesRequired)
    else
      match Splice(messages[1].content, exported, draft)
      case Err(e) => Err(e)
      case Ok(text) => Ok([messages[0], Message("user", text)])
  }

  function Lines(text: string): (lines: seq<string>)
    decreases |text|
  {
    var end := LineEnd(text, 0);
    if end == |text| then [text] else [text[..end]] + Lines(text[end + 1..])
  }

  /** The identifier on an item line, if the line is one. */
  function ItemId(line: string): Option<string> {
    if |line| > |ITEM| && line[..|ITEM|] == ITEM && forall k | |ITEM| <= k < |line| :: !IsSpace(line[k])
    then Some(line[|ITEM|..]) else None
  }

  function ItemIds(lines: seq<string>): seq<string> {
    if lines == [] then []
    else (if ItemId(lines[0]).Some? then [ItemId(lines[0]).value] else []) + ItemIds(lines[1..])
  }

  predicate Distinct(ids: seq<string>) {
    forall i, j | 0 <= i < j < |ids| :: ids[i] != ids[j]
  }

  function ItemsIn(tail: Option<string>): Result<seq<string>, Error> {
    var ids := if tail.Some? then ItemIds(Lines(tail.value)) else [];
    if ids == [] || !Distinct(ids) then Err(ReviewerItemsUnavailable)
    else Ok(ids)
  }

  function ReviewItemIds(messages: seq<Message>): Result<seq<string>, Error> {
    if !NativeMessages(messages) then Err(NativeRolesRequired) else ItemsIn(AfterLast(messages[1].content, ITEMS))
  }

  // ----- the shape of an accepted prompt -------------------------------------------------------

  /** An exported prompt around its evidence block and its draft. */
  datatype Template = Template(before: string, title: string, meta: string, between: string, after: string)

  function Render(t: Template, title: string, meta: string, body: string): string {
    t.before + (Block(title, meta) + (t.between + (Anchor(body) + t.after)))
  }

  function TemplateOf(text: string, exported: string): Template
    requires Cuts(text, exported).Some?
  {
    var (f, start) := Cuts(text, exported).value;
    Template(text[..f.start], text[f.start + |HEAD|..f.titleEnd], text[f.titleEnd + |MIDDLE|..f.metaEnd],
             text[End(f)..start], text[start + |Anchor(exported)|..])
  }

  lemma Assoc(a: string, b: string, c: string)
    ensures a + b + c == a + (b + c)
  {
  }

  lemma Cut(text: string, i: nat, j: nat)
    requires i <= j <= |text|
    ensures text[i..] == text[i..j] + text[j..]
  {
  }

  lemma FiveParts(text: string, a: nat, b: nat, c: nat, d: nat, e: nat, end: nat)
    requires a <= b <= c <= d <= e <= end <= |text|
    ensures text[a..] == text[a..b] + (text[b..c] + (text[c..d] + (text[d..e] + (text[e..end] + text[end..]))))
  {
    Cut(text, a, b);
    Cut(text, b, c);
    Cut(text, c, d);
    Cut(text, d, e);
    Cut(text, e, end);
  }

  lemma Flatten(title: string, meta: string, rest: string)
    ensures Block(title, meta) + rest == HEAD + (title + (MIDDLE + (meta + (END + rest))))
  {
    Assoc(meta, END, rest);
    Assoc(MIDDLE, meta + END, rest);
    Assoc(title, MIDDLE + (meta + END), rest);
    Assoc(HEAD, title + (MIDDLE + (meta + END)), rest);
  }

  /** A match is the block of its two lines. */
  lemma BlockSplit(text: string, f: Found)
    requires IsMatch(text, f)
    ensures text[f.start..] ==
      Block(text[f.start + |HEAD|..f.titleEnd], text[f.titleEnd + |MIDDLE|..f.metaEnd]) + text[End(f)..]
  {
    hide Block, HEAD, MIDDLE, END, IsMatch, At;
    MatchParts(text, f);
    FiveParts(text, f.start, f.start + |HEAD|, f.titleEnd, f.titleEnd + |MIDDLE|, f.metaEnd, End(f));
    Flatten(text[f.start + |HEAD|..f.titleEnd], text[f.titleEnd + |MIDDLE|..f.metaEnd], text[End(f)..]);
  }

  lemma MatchParts(text: string, f: Found)
    requires IsMatch(text, f)
    ensures f.start + |HEAD| <= f.titleEnd && f.titleEnd + |MIDDLE| <= f.metaEnd && End(f) <= |text|
    ensures text[f.start..f.start + |HEAD|] == HEAD
    ensures text[f.titleEnd..f.titleEnd + |MIDDLE|] == MIDDLE && text[f.metaEnd..End(f)] == END
  {
    hide HEAD, MIDDLE, END;
  }

  lemma Reassociate(before: string, block: string, between: string, body: string, after: string)
    ensures before + block + between + DRAFT + body + GAP + ITEMS + after ==
      before + (block + (between + (Anchor(body) + after)))
  {
    var end := GAP + ITEMS;
    Assoc(before + block + between + DRAFT + body, GAP, ITEMS);
    Assoc(before + block + between + DRAFT, body, end);
    Assoc(before + block + between, DRAFT, body + end);
    Assoc(before + block + between, Anchor(body), after);
    Assoc(before + block, between, Anchor(body) + after);
    Assoc(before, block, between + (Anchor(body) + after));
  }

  lemma CutsMatch(text: string, exported: string)
    requires Cuts(text, exported).Some?
    ensures var (f, start) := Cuts(text, exported).value;
      && IsMatch(text, f) && End(f) <= start && At(text, Anchor(exported), start) && f.start <= End(f)
      && OneLine(text[f.start + |HEAD|..f.titleEnd]) && OneLine(text[f.titleEnd + |MIDDLE|..f.metaEnd])
  {
  }

  lemma Glue(text: string, a: nat, b: nat, c: nat, block: string, anchor: string)
    requires a <= b <= c && At(text, anchor, c) && text[a..] == block + text[b..]
    ensures text == text[..a] + (block + (text[b..c] + (anchor + text[c + |anchor|..])))
  {
    Cut(text, c, c + |anchor|);
    Cut(text, b, c);
    assert text == text[..a] + text[a..];
  }

  lemma TextIsRendered(text: string, exported: string)
    requires Cuts(text, exported).Some?
    ensures var t := TemplateOf(text, exported);
      OneLine(t.title) && OneLine(t.meta) && text == Render(t, t.title, t.meta, exported)
  {
    hide Cuts, Anchor, Block, IsMatch, HEAD, MIDDLE, END, OneLine;
    CutsMatch(text, exported);
    var (f, start) := Cuts(text, exported).value;
    BlockSplit(text, f);
    var t := TemplateOf(text, exported);
    Glue(text, f.start, End(f), start, Block(t.title, t.meta), Anchor(exported));
  }

  /** An accepted prompt is its template around its own title, meta line and body; splicing renders the template with
      the draft's. */
  lemma SpliceRenders(text: string, exported: string, draft: Draft)
    requires Cuts(text, exported).Some?
    ensures var t := TemplateOf(text, exported);
      && OneLine(t.title) && OneLine(t.meta)
      && text == Render(t, t.title, t.meta, exported)
      && Splice(text, exported, draft) == Ok(Render(t, draft.title, Shown(draft.meta), draft.body))
  {
    hide Cuts, Anchor, Block, IsMatch, DRAFT, GAP, ITEMS, HEAD, MIDDLE, END, Shown, OneLine;
    TextIsRendered(text, exported);
    CutsMatch(text, exported);
    var t := TemplateOf(text, exported);
    Reassociate(t.before, Block(draft.title, Shown(draft.meta)), t.between, draft.body, t.after);
  }

  // ----- what is accepted ---------------------------------------------------------------------

  lemma HeadsOverlap(text: string, f: nat, g: nat)
    requires At(text, HEAD, f) && At(text, HEAD, g) && f < g < f + |HEAD| - 1
    ensures HEAD[g - f] == HEAD[0] && HEAD[g - f + 1] == HEAD[1]
  {
    hide HEAD;
    assert text[f..f + |HEAD|][g - f] == text[g..g + |HEAD|][0];
    assert text[f..f + |HEAD|][g - f + 1] == text[g..g + |HEAD|][1];
  }

  lemma HeaderAt(text: string, i: nat)
    requires At(text, HEAD, i)
    ensures At(text, HEADER, i)
  {
    assert HEAD[..|HEADER|] == HEADER;
    assert text[i..i + |HEADER|] == text[i..i + |HEAD|][..|HEADER|];
  }

  lemma HeadsApart(text: string, f: Found, g: Found)
    requires IsMatch(text, f) && IsMatch(text, g) && f.start < g.start
    ensures f.start + |HEADER| <= g.start && At(text, HEADER, f.start) && At(text, HEADER, g.start)
  {
    HeaderAt(text, f.start);
    HeaderAt(text, g.start);
    if g.start < f.start + |HEADER| {
      HeadsOverlap(text, f.start, g.start);
    }
  }

  lemma MatchIsDetermined(text: string, f: Found, g: Found)
    requires IsMatch(text, f) && IsMatch(text, g) && f.start == g.start
    ensures f == g
  {
    LineEndsHere(text, f.start + |HEAD|, f.titleEnd, MIDDLE);
    LineEndsHere(text, g.start + |HEAD|, g.titleEnd, MIDDLE);
    LineEndsHere(text, f.titleEnd + |MIDDLE|, f.metaEnd, END);
    LineEndsHere(text, g.titleEnd + |MIDDLE|, g.metaEnd, END);
  }

  lemma LineEndsHere(text: string, from: nat, end: nat, next: string)
    requires from <= end && At(text, next, end) && next != [] && next[0] == '\n' && OneLine(text[from..end])
    ensures end == LineEnd(text, from)
  {
    assert text[end] == text[end..end + |next|][0];
    assert forall k | from <= k < end :: text[k] == text[from..end][k - from];
  }

  /** An accepted prompt has one evidence block, between a promise and a draft; whatever else looks like that promise or
      draft overlaps it. */
  lemma AcceptedIsUnambiguous(text: string, exported: string, g: Found, k: nat)
    requires Cuts(text, exported).Some?
    ensures var (f, start) := Cuts(text, exported).value;
      && (IsMatch(text, g) ==> g == f)
      && (At(text, Anchor(exported), k) ==> -|Anchor(exported)| < k - start < |Anchor(exported)|)
      && exists brief :: 0 <= brief < f.start && At(text, BRIEF, brief)
           && (At(text, BRIEF, k) ==> -|BRIEF| < k - brief < |BRIEF|)
  {
    var (f, start) := Cuts(text, exported).value;
    if IsMatch(text, g) {
      OneMatch(text, f, g);
    }
    OnlyOne(text, Anchor(exported), start, k);
    var brief := Index(text, BRIEF, 0).value;
    OnlyOne(text, BRIEF, brief, k);
  }

  /** Scanning finds the only match there is. */
  lemma {:induction false} ScanFinds(text: string, f: Found, from: nat)
    requires IsMatch(text, f) && from <= f.start && forall g | IsMatch(text, g) :: g == f
    ensures Matches(text, from) == [f]
    decreases f.start - from
  {
    if from == f.start {
      MatchHere(text, f);
      var rest := Matches(text, End(f));
      if rest != [] {
        assert rest[0] in rest;
        MatchesLater(text, End(f), rest[0]);
      }
    } else {
      assert MatchAt(text, from).None?;
      ScanFinds(text, f, from + 1);
    }
  }

  lemma MatchHere(text: string, f: Found)
    requires IsMatch(text, f)
    ensures MatchAt(text, f.start) == Some(f)
  {
    LineEndsHere(text, f.start + |HEAD|, f.titleEnd, MIDDLE);
    LineEndsHere(text, f.titleEnd + |MIDDLE|, f.metaEnd, END);
  }

  lemma {:induction false} MatchesLater(text: string, from: nat, g: Found)
    requires from <= |text| && g in Matches(text, from)
    ensures g.start >= from
    decreases |text| - from
  {
    hide MatchAt, IsMatch;
    var here := MatchAt(text, from);
    if here.Some? {
      StartsHere(text, from);
      if g in Matches(text, End(here.value)) {
        MatchesLater(text, End(here.value), g);
      }
    } else if from < |text| {
      MatchesLater(text, from + 1, g);
    }
  }

  lemma StartsHere(text: string, from: nat)
    requires from <= |text| && MatchAt(text, from).Some?
    ensures MatchAt(text, from).value.start == from && from < End(MatchAt(text, from).value) <= |text|
  {
  }

  /** Exactly when a prompt is accepted, without the scan: the three anchors once each, and a block in its place. */
  lemma AcceptedExactly(text: string, exported: string)
    ensures Cuts(text, exported).Some? <==> exists f, brief, start :: WellPlaced(text, exported, f, brief, start)
  {
    if f, brief, start :| WellPlaced(text, exported, f, brief, start) {
      forall g | IsMatch(text, g) ensures g == f {
        OneMatch(text, f, g);
      }
      ScanFinds(text, f, 0);
    } else if Cuts(text, exported).Some? {
      var (f, start) := Cuts(text, exported).value;
      assert WellPlaced(text, exported, f, Index(text, BRIEF, 0).value, start);
    }
  }

  ghost predicate WellPlaced(text: string, exported: string, f: Found, brief: nat, start: nat) {
    && Occurrences(text, Anchor(exported), 0) == 1 && Occurrences(text, BRIEF, 0) == 1
    && Occurrences(text, HEADER, 0) == 1
    && IsMatch(text, f) && Index(text, BRIEF, 0) == Some(brief) && Index(text, Anchor(exported), 0) == Some(start)
    && brief < f.start && End(f) <= start
  }

  lemma OneMatch(text: string, f: Found, g: Found)
    requires IsMatch(text, f) && IsMatch(text, g) && Occurrences(text, HEADER, 0) == 1
    ensures f == g
  {
    if f.start < g.start {
      HeadsApart(text, f, g);
      ApartAreCounted(text, HEADER, 0, f.start, g.start);
    } else if g.start < f.start {
      HeadsApart(text, g, f);
      ApartAreCounted(text, HEADER, 0, g.start, f.start);
    }
    MatchIsDetermined(text, f, g);
  }

  lemma OnlyOne(text: string, sub: string, a: nat, k: nat)
    requires |sub| > 0 && Occurrences(text, sub, 0) == 1 && At(text, sub, a)
    ensures At(text, sub, k) ==> -|sub| < k - a < |sub|
  {
    if At(text, sub, k) {
      if a + |sub| <= k {
        ApartAreCounted(text, sub, 0, a, k);
      } else if k + |sub| <= a {
        ApartAreCounted(text, sub, 0, k, a);
      }
    }
  }

  // ----- what splicing keeps and gives back ----------------------------------------------------

  lemma SpliceTail(text: string, exported: string, draft: Draft)
    requires Splice(text, exported, draft).Ok?
    ensures AfterLast(Splice(text, exported, draft).value, ITEMS) == AfterLast(text, ITEMS)
    ensures AfterLast(text, ITEMS).Some?
  {
    hide Cuts, Shown, Render, AfterLast, ITEMS;
    assert Cuts(text, exported).Some?;
    SpliceRenders(text, exported, draft);
    var t := TemplateOf(text, exported);
    RenderEnds(t, t.title, t.meta, exported);
    RenderEnds(t, draft.title, Shown(draft.meta), draft.body);
  }

  /** Whatever a draft contains, the reviewer is asked for exactly the exported items. */
  lemma ItemsUnchanged(messages: seq<Message>, exported: string, draft: Draft)
    requires ReviewerMessages(messages, exported, draft).Ok?
    ensures ReviewItemIds(ReviewerMessages(messages, exported, draft).value) == ReviewItemIds(messages)
  {
    hide ItemsIn, ITEMS, AfterLast, Splice;
    var out := ReviewerMessages(messages, exported, draft).value;
    SpliceTail(messages[1].content, exported, draft);
    NonEmptyTail(out[1].content);
    assert NativeMessages(messages) && NativeMessages(out);
    assert AfterLast(out[1].content, ITEMS) == AfterLast(messages[1].content, ITEMS);
  }

  lemma NonEmptyTail(text: string)
    requires AfterLast(text, ITEMS).Some?
    ensures text != []
  {
    var i := LastIndex(text, ITEMS, |text| + 1).value;
    assert At(text, ITEMS, i) && |ITEMS| == 10;
  }

  /** A rendered prompt ends in the items heading and what follows it, and only that decides the last split. */
  lemma RenderEnds(t: Template, title: string, meta: string, body: string)
    ensures AfterLast(Render(t, title, meta, body), ITEMS) == AfterLast(ITEMS + t.after, ITEMS)
    ensures AfterLast(Render(t, title, meta, body), ITEMS).Some?
  {
    hide Block;
    var block, tail := Block(title, meta), ITEMS + t.after;
    var front := t.before + block + t.between + DRAFT + body + GAP;
    Reassociate(t.before, block, t.between, body, t.after);
    Assoc(front, ITEMS, t.after);
    assert At(tail, ITEMS, 0) by {
      assert tail[..|ITEMS|] == ITEMS;
    }
    AfterLastIsLocal(front, tail, ITEMS, 0);
  }

  /** Two drafts of one-line title and meta give the same prompt exactly when the reviewer sees the same three texts. */
  lemma SpliceDeterminesDraft(text: string, exported: string, draft: Draft, other: Draft)
    requires Cuts(text, exported).Some?
    requires OneLine(draft.title) && OneLine(draft.meta) && OneLine(other.title) && OneLine(other.meta)
    ensures Splice(text, exported, draft) == Splice(text, exported, other) <==>
      draft.title == other.title && Shown(draft.meta) == Shown(other.meta) && draft.body == other.body
  {
    hide Cuts, Block, Shown, Splice, Render;
    SpliceRenders(text, exported, draft);
    SpliceRenders(text, exported, other);
    ShownIsOneLine(draft.meta);
    ShownIsOneLine(other.meta);
    var t := TemplateOf(text, exported);
    if Splice(text, exported, draft) == Splice(text, exported, other) {
      RenderInjective(t, draft.title, Shown(draft.meta), draft.body, other.title, Shown(other.meta), other.body);
    }
  }

  lemma ShownIsOneLine(meta: string)
    requires OneLine(meta)
    ensures OneLine(Shown(meta))
  {
  }

  lemma PrefixCancels(before: string, a: string, b: string)
    requires before + a == before + b
    ensures a == b
  {
    assert a == (before + a)[|before|..] && b == (before + b)[|before|..];
  }

  lemma SuffixCancels(a: string, b: string, after: string)
    requires a + after == b + after
    ensures a == b
  {
    assert |a| == |b|;
    assert a == (a + after)[..|a|] && b == (b + after)[..|b|];
  }

  /** A line followed by a text that starts with a line break. */
  lemma LineThen(line: string, other: string, next: string, rest: string, more: string)
    requires OneLine(line) && OneLine(other) && next != [] && next[0] == '\n'
    requires line + (next + rest) == other + (next + more)
    ensures line == other && rest == more
  {
    var a, b := next[1..] + rest, next[1..] + more;
    assert next == ['\n'] + next[1..];
    Assoc(['\n'], next[1..], rest);
    Assoc(['\n'], next[1..], more);
    Assoc(line, ['\n'], a);
    Assoc(other, ['\n'], b);
    LineCancels(line, other, a, b);
    PrefixCancels(next[1..], rest, more);
  }

  lemma RenderInjective(t: Template, title: string, meta: string, body: string, title': string, meta': string,
                        body': string)
    requires OneLine(title) && OneLine(meta) && OneLine(title') && OneLine(meta')
    requires Render(t, title, meta, body) == Render(t, title', meta', body')
    ensures title == title' && meta == meta' && body == body'
  {
    var rest, rest' := t.between + (Anchor(body) + t.after), t.between + (Anchor(body') + t.after);
    PrefixCancels(t.before, Block(title, meta) + rest, Block(title', meta') + rest');
    Flatten(title, meta, rest);
    Flatten(title', meta', rest');
    PrefixCancels(HEAD, title + (MIDDLE + (meta + (END + rest))), title' + (MIDDLE + (meta' + (END + rest'))));
    LineThen(title, title', MIDDLE, meta + (END + rest), meta' + (END + rest'));
    LineThen(meta, meta', END, rest, rest');
    PrefixCancels(t.between, Anchor(body) + t.after, Anchor(body') + t.after);
    SuffixCancels(Anchor(body), Anchor(body'), t.after);
    PrefixCancels(DRAFT, body + (GAP + ITEMS), body' + (GAP + ITEMS));
    SuffixCancels(body, body', GAP + ITEMS);
  }

  /** Splicing back what was exported returns the exported text, exactly when the exported meta line is not blank. */
  lemma OwnDraftReturns(text: string, exported: string)
    requires Cuts(text, exported).Some?
    ensures var t := TemplateOf(text, exported);
      Splice(text, exported, Draft(t.title, t.meta, exported)) == Ok(text) <==> Strip(t.meta) != ""
  {
    hide Cuts, Block, Splice, Render;
    var t := TemplateOf(text, exported);
    SpliceRenders(text, exported, Draft(t.title, t.meta, exported));
    if Strip(t.meta) == "" {
      ShownIsOneLine(t.meta);
      assert Strip("not provided") != "";
      if Render(t, t.title, Shown(t.meta), exported) == Render(t, t.title, t.meta, exported) {
        RenderInjective(t, t.title, Shown(t.meta), exported, t.title, t.meta, exported);
      }
    }
  }

  /** An exported prompt with nothing in its title, its meta line and its draft. */
  function BlankPrompt(): string {
    BRIEF + HEAD + MIDDLE + END + Anchor("")
  }

  lemma LacksBoth(s: string, t: string, c: char)
    requires Lacks(s, c) && Lacks(t, c)
    ensures Lacks(s + t, c)
  {
  }

  lemma EndMarks()
    ensures Lacks(END, '(') && Lacks(END, 'v') && Lacks(END, 'I')
  {
    var line, rest := "Draft metadata does not redefine ", "the brief's promise.\n";
    LacksBoth(line, rest, '(');
    LacksBoth(line, rest, 'v');
    LacksBoth(line, rest, 'I');
    LacksBoth("\n", line + rest, '(');
    LacksBoth("\n", line + rest, 'v');
    LacksBoth("\n", line + rest, 'I');
  }

  lemma AnchorIs()
    ensures Anchor("") == "\n## The draft\n\n\n\n\n## Items\n"
  {
  }

  /** Each anchor has a character no other part of the prompt has. */
  lemma PromiseMark()
    ensures |BRIEF| > 16 && BRIEF[16] == '(' && (forall k | 0 <= k < |BRIEF| && k != 16 :: BRIEF[k] != '(')
    ensures Lacks(HEAD, '(') && Lacks(MIDDLE, '(') && Lacks(END, '(') && Lacks(Anchor(""), '(')
  {
    hide END, Anchor;
    EndMarks();
    AnchorIs();
  }

  lemma HeadingMark()
    ensures |HEADER| > 11 && HEADER[11] == 'v' && (forall k | 0 <= k < |HEADER| && k != 11 :: HEADER[k] != 'v')
    ensures Lacks(BRIEF, 'v') && HEAD == HEADER + "Title: " && Lacks("Title: ", 'v') && Lacks(MIDDLE, 'v')
    ensures Lacks(END, 'v') && Lacks(Anchor(""), 'v')
  {
    hide END, Anchor;
    EndMarks();
    AnchorIs();
  }

  lemma DraftMark()
    ensures |Anchor("")| > 21 && Anchor("")[21] == 'I'
    ensures forall k | 0 <= k < |Anchor("")| && k != 21 :: Anchor("")[k] != 'I'
    ensures Lacks(BRIEF, 'I') && Lacks(HEAD, 'I') && Lacks(MIDDLE, 'I') && Lacks(END, 'I')
  {
    hide END, Anchor;
    EndMarks();
    AnchorIs();
  }

  lemma BlankHasOnePromise()
    ensures Occurrences(BlankPrompt(), BRIEF, 0) == 1 && Index(BlankPrompt(), BRIEF, 0) == Some(0)
  {
    hide BRIEF, HEAD, MIDDLE, END, Anchor, Lacks;
    PromiseMark();
    LacksBoth(HEAD, MIDDLE, '(');
    LacksBoth(HEAD + MIDDLE, END, '(');
    LacksBoth(HEAD + MIDDLE + END, Anchor(""), '(');
    assert Lacks("", '(') by { EmptyLacks('('); }
    OccursOnce("", BRIEF, HEAD + MIDDLE + END + Anchor(""), 16);
    assert "" + BRIEF + (HEAD + MIDDLE + END + Anchor("")) == BlankPrompt();
  }

  lemma EmptyLacks(c: char)
    ensures Lacks("", c)
  {
  }

  lemma BlankHasOneHeading()
    ensures Occurrences(BlankPrompt(), HEADER, 0) == 1
  {
    hide BRIEF, HEAD, HEADER, MIDDLE, END, Anchor, Lacks;
    HeadingMark();
    LacksBoth("Title: ", MIDDLE, 'v');
    LacksBoth("Title: " + MIDDLE, END, 'v');
    LacksBoth("Title: " + MIDDLE + END, Anchor(""), 'v');
    OccursOnce(BRIEF, HEADER, "Title: " + MIDDLE + END + Anchor(""), 11);
    assert BRIEF + HEADER + ("Title: " + MIDDLE + END + Anchor("")) == BlankPrompt();
  }

  lemma BlankHasOneDraft()
    ensures Occurrences(BlankPrompt(), Anchor(""), 0) == 1
    ensures Index(BlankPrompt(), Anchor(""), 0) == Some(|BRIEF + HEAD + MIDDLE + END|)
  {
    hide BRIEF, HEAD, MIDDLE, END, Anchor, Lacks;
    DraftMark();
    LacksBoth(BRIEF, HEAD, 'I');
    LacksBoth(BRIEF + HEAD, MIDDLE, 'I');
    LacksBoth(BRIEF + HEAD + MIDDLE, END, 'I');
    assert Lacks("", 'I') by { EmptyLacks('I'); }
    OccursOnce(BRIEF + HEAD + MIDDLE + END, Anchor(""), "", 21);
    assert BRIEF + HEAD + MIDDLE + END + Anchor("") + "" == BlankPrompt();
  }

  function BlankBlock(): Found {
    Found(|BRIEF|, |BRIEF + HEAD|, |BRIEF + HEAD + MIDDLE|)
  }

  lemma BlankBlockMatches()
    ensures IsMatch(BlankPrompt(), BlankBlock())
  {
    hide BRIEF, HEAD, MIDDLE, END, Anchor;
    var text, f := BlankPrompt(), BlankBlock();
    assert text[f.start..f.titleEnd] == HEAD && text[f.titleEnd..f.metaEnd] == MIDDLE && text[f.metaEnd..End(f)] == END;
  }

  /** Its anchors are in place, its meta line is blank, and splicing its own draft back gives another text. */
  lemma BlankMetaIsNotReturned()
    ensures Cuts(BlankPrompt(), "").Some? && Strip(TemplateOf(BlankPrompt(), "").meta) == ""
    ensures var t := TemplateOf(BlankPrompt(), "");
      Splice(BlankPrompt(), "", Draft(t.title, t.meta, "")) != Ok(BlankPrompt())
  {
    hide BRIEF, HEAD, MIDDLE, END, HEADER, Anchor, BlankPrompt, IsMatch, Cuts, Splice, Strip;
    BlankHasOnePromise();
    BlankHasOneHeading();
    BlankHasOneDraft();
    BlankBlockMatches();
    assert WellPlaced(BlankPrompt(), "", BlankBlock(), 0, |BRIEF + HEAD + MIDDLE + END|);
    AcceptedExactly(BlankPrompt(), "");
    CutsMatch(BlankPrompt(), "");
    OneMatch(BlankPrompt(), Cuts(BlankPrompt(), "").value.0, BlankBlock());
    assert TemplateOf(BlankPrompt(), "").meta == "";
    assert Strip("") == "" by { BlankStrips(); }
    OwnDraftReturns(BlankPrompt(), "");
  }

  lemma BlankStrips()
    ensures Strip("") == ""
  {
  }

  // ----- which items are read ----------------------------------------------------------------------

  /** The identifier stands on some line, behind the mark of an item. */
  ghost predicate Listed(lines: seq<string>, id: string) {
    IsItem(id) && ITEM + id in lines
  }

  lemma ItemIdMeans(line: string, id: string)
    ensures ItemId(line) == Some(id) <==> line == ITEM + id && IsItem(id)
  {
    if line == ITEM + id {
      assert line[..|ITEM|] == ITEM && line[|ITEM|..] == id;
      assert forall k | 0 <= k < |id| :: id[k] == line[|ITEM| + k];
      assert forall k | |ITEM| <= k < |line| :: line[k] == id[k - |ITEM|];
    }
    if ItemId(line) == Some(id) {
      assert line == line[..|ITEM|] + line[|ITEM|..];
    }
  }

  lemma {:induction false} ItemIdsMean(lines: seq<string>, id: string)
    ensures id in ItemIds(lines) <==> Listed(lines, id)
  {
    if lines != [] {
      hide ItemId;
      var here, rest := ItemId(lines[0]), lines[1..];
      ItemIdMeans(lines[0], id);
      ItemIdsMean(rest, id);
      assert ITEM + id in lines <==> ITEM + id == lines[0] || ITEM + id in rest;
      assert ItemIds(lines) == (if here.Some? then [here.value] else []) + ItemIds(rest);
    }
  }

  /** The items are the identifiers on the item lines behind the last heading; refused when there are none or one
      comes twice. */
  lemma ItemsExactly(tail: string)
    ensures match ItemsIn(Some(tail))
      case Ok(ids) =>
        ids != [] && Distinct(ids) && forall id :: id in ids <==> Listed(Lines(tail), id)
      case Err(_) =>
        (forall id :: !Listed(Lines(tail), id)) || !Distinct(ItemIds(Lines(tail)))
  {
    hide ItemId, LineEnd;
    forall id ensures id in ItemIds(Lines(tail)) <==> Listed(Lines(tail), id) {
      ItemIdsMean(Lines(tail), id);
    }
  }

  // ----- reading the items back ----------------------------------------------------------------

  /** Item lines as the template renders them. */
  function ItemLines(ids: seq<string>): string
    requires ids != []
  {
    if |ids| == 1 then ITEM + ids[0] else ITEM + ids[0] + (['\n'] + ItemLines(ids[1..]))
  }

  predicate IsItem(id: string) {
    id != [] && forall k | 0 <= k < |id| :: !IsSpace(id[k])
  }

  lemma LinesSplit(line: string, rest: string)
    requires OneLine(line)
    ensures Lines(line) == [line]
    ensures Lines(line + (['\n'] + rest)) == [line] + Lines(rest)
  {
    var text := line + (['\n'] + rest);
    assert LineEnd(line, 0) == |line|;
    assert forall k | 0 <= k < |line| :: text[k] == line[k];
    assert text[|line|] == '\n';
    assert LineEnd(text, 0) == |line|;
    assert text[..|line|] == line && text[|line| + 1..] == rest;
  }

  lemma ItemLineReads(id: string)
    requires IsItem(id)
    ensures OneLine(ITEM + id) && ItemId(ITEM + id) == Some(id)
  {
    var line := ITEM + id;
    assert line[..|ITEM|] == ITEM && line[|ITEM|..] == id;
    assert OneLine(ITEM);
    forall k | 0 <= k < |line| ensures line[k] != '\n' {
      if k >= |ITEM| {
        assert line[k] == id[k - |ITEM|];
      } else {
        assert line[k] == ITEM[k];
      }
    }
    forall k | |ITEM| <= k < |line| ensures !IsSpace(line[k]) {
      assert line[k] == id[k - |ITEM|];
    }
  }

  lemma {:induction false} ItemLinesRead(ids: seq<string>)
    requires ids != [] && forall id | id in ids :: IsItem(id)
    ensures ItemIds(Lines(ItemLines(ids))) == ids
  {
    hide ItemId, Lines;
    ItemLineReads(ids[0]);
    if |ids| == 1 {
      LinesSplit(ITEM + ids[0], []);
      assert ItemIds([ITEM + ids[0]]) == [ids[0]] + ItemIds([]);
      assert ids == [ids[0]];
    } else {
      ItemLinesRead(ids[1..]);
      LinesSplit(ITEM + ids[0], ItemLines(ids[1..]));
      var lines := Lines(ItemLines(ids[1..]));
      assert ([ITEM + ids[0]] + lines)[1..] == lines;
      assert ids == [ids[0]] + ids[1..];
    }
  }

  /** Rendered items are read back exactly: all of them, in order. */
  lemma ItemsReadBack(ids: seq<string>)
    requires ids != [] && forall id | id in ids :: IsItem(id)
    requires Distinct(ids)
    ensures ItemsIn(Some(ItemLines(ids))) == Ok(ids)
  {
    hide ItemIds, Lines, ItemLines;
    ItemLinesRead(ids);
  }
}
