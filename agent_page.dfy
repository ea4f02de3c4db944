// The career-agent chat page: the text it assembles from the fragments of a resume
// PDF, and the chat state that `handleSubmit` updates before and after it posts the
// history and the prompt to the agent route.
module AgentPage {
  import opened Text
  import opened Outcomes
  import AgentFlow

  // ---------------------------------------------------------------------------
  // Assembling the text of a page.

  /** A text fragment of a page: its string and its vertical position (`transform[5]`). */
  datatype Fragment = Fragment(str: string, y: int)

  /** The fragments kept: those whose string is not blank, in their order. */
  function Visible(items: seq<Fragment>): (r: seq<Fragment>)
    ensures |r| <= |items|
    decreases |items|
  {
    if items == [] then []
    else (if !AllWhitespace(items[0].str) then [items[0]] else []) + Visible(items[1..])
  }

  /** A fragment starts a new line when the previous one had a position other than the `-1` start value and the two are more than 5 apart. */
  predicate Break(lastY: int, y: int) {
    lastY != -1 && (if lastY >= y then lastY - y else y - lastY) > 5
  }

  /** A fragment's string appended to the line so far: one space between them unless either side already has one, or the line is empty. */
  function JoinText(line: string, text: string): (r: string)
    ensures line != "" && !EndsWith(line, " ") && !StartsWith(text, " ") ==> r == line + " " + text
    ensures !(line != "" && !EndsWith(line, " ") && !StartsWith(text, " ")) ==> r == line + text
  {
    if line != "" && !EndsWith(line, " ") && !StartsWith(text, " ") then line + " " + text else line + text
  }

  /** `f` added to the lines so far: as a line of its own when it breaks (or is the first), otherwise to the end of the last line. */
  function AddFragment(ls: seq<seq<Fragment>>, f: Fragment, brk: bool): (r: seq<seq<Fragment>>)
    ensures |r| == if ls == [] || brk then |ls| + 1 else |ls|
  {
    if ls == [] || brk then ls + [[f]] else ls[..|ls| - 1] + [ls[|ls| - 1] + [f]]
  }

  /**
   * The fragments grouped into lines: a new group starts at every fragment that
   * breaks from the one before it.
   */
  function Lines(fs: seq<Fragment>): (r: seq<seq<Fragment>>)
    ensures |r| <= |fs|
    ensures r == [] <==> fs == []
    decreases |fs|
  {
    if fs == [] then []
    else
      var init := fs[..|fs| - 1];
      AddFragment(Lines(init), fs[|fs| - 1], init != [] && Break(init[|init| - 1].y, fs[|fs| - 1].y))
  }

  function Flatten(gs: seq<seq<Fragment>>): seq<Fragment>
    decreases |gs|
  {
    if gs == [] then [] else Flatten(gs[..|gs| - 1]) + gs[|gs| - 1]
  }

  lemma FlattenSnoc(gs: seq<seq<Fragment>>, g: seq<Fragment>)
    ensures Flatten(gs + [g]) == Flatten(gs) + g
  {
    assert (gs + [g])[..|gs|] == gs;
  }

  /** No line is empty and no two neighbours inside a line break. */
  predicate InnerJoined(gs: seq<seq<Fragment>>) {
    forall k :: 0 <= k < |gs| ==> gs[k] != [] && forall j :: 0 < j < |gs[k]| ==> !Break(gs[k][j - 1].y, gs[k][j].y)
  }

  /** Every line after the first starts with a break from the end of the line before. */
  predicate BrokenBetween(gs: seq<seq<Fragment>>)
    requires InnerJoined(gs)
  {
    forall k :: 0 < k < |gs| ==> Break(gs[k - 1][|gs[k - 1]| - 1].y, gs[k][0].y)
  }

  lemma AddFlatten(ls: seq<seq<Fragment>>, f: Fragment, brk: bool)
    ensures Flatten(AddFragment(ls, f, brk)) == Flatten(ls) + [f]
  {
    if ls == [] || brk {
      FlattenSnoc(ls, [f]);
    } else {
      var front := ls[..|ls| - 1];
      assert ls == front + [ls[|ls| - 1]];
      FlattenSnoc(front, ls[|ls| - 1]);
      FlattenSnoc(front, ls[|ls| - 1] + [f]);
    }
  }

  lemma AddInner(ls: seq<seq<Fragment>>, f: Fragment, brk: bool)
    requires InnerJoined(ls)
    requires ls != [] && !brk ==> !Break(ls[|ls| - 1][|ls[|ls| - 1]| - 1].y, f.y)
    ensures InnerJoined(AddFragment(ls, f, brk))
  {
    var r: seq<seq<Fragment>> := AddFragment(ls, f, brk);
    if !(ls == [] || brk) {
      var last := ls[|ls| - 1];
      forall k | 0 <= k < |r| ensures r[k] != [] && forall j :: 0 < j < |r[k]| ==> !Break(r[k][j - 1].y, r[k][j].y) {
        if k < |r| - 1 {
          assert r[k] == ls[k];
        } else {
          assert r[k] == last + [f];
          forall j | 0 < j < |r[k]| ensures !Break(r[k][j - 1].y, r[k][j].y) {
            if j < |last| {
              assert r[k][j - 1] == last[j - 1] && r[k][j] == last[j];
            }
          }
        }
      }
    }
  }

  lemma AddBetween(ls: seq<seq<Fragment>>, f: Fragment, brk: bool)
    requires InnerJoined(ls) && BrokenBetween(ls)
    requires ls != [] && !brk ==> !Break(ls[|ls| - 1][|ls[|ls| - 1]| - 1].y, f.y)
    requires ls != [] && brk ==> Break(ls[|ls| - 1][|ls[|ls| - 1]| - 1].y, f.y)
    ensures InnerJoined(AddFragment(ls, f, brk)) && BrokenBetween(AddFragment(ls, f, brk))
  {
    AddInner(ls, f, brk);
    var r: seq<seq<Fragment>> := AddFragment(ls, f, brk);
    if !(ls == [] || brk) {
      forall k | 0 < k < |r| ensures Break(r[k - 1][|r[k - 1]| - 1].y, r[k][0].y) {
        assert r[k - 1] == ls[k - 1];
        assert r[k][0] == ls[k][0];
      }
    } else {
      forall k | 0 < k < |r| ensures Break(r[k - 1][|r[k - 1]| - 1].y, r[k][0].y) {
        if k < |r| - 1 {
          assert r[k - 1] == ls[k - 1] && r[k] == ls[k];
        }
      }
    }
  }

  /**
   * The grouping is the partition the loop makes: the lines hold the fragments in
   * order, no line is empty, no two neighbours inside a line break, and every line
   * after the first starts with a break from the last fragment of the line before.
   */
  lemma {:induction false} LinesPartition(fs: seq<Fragment>)
    ensures Flatten(Lines(fs)) == fs
    ensures InnerJoined(Lines(fs)) && BrokenBetween(Lines(fs))
    decreases |fs|
  {
    if fs != [] {
      var init := fs[..|fs| - 1];
      var f := fs[|fs| - 1];
      var ls := Lines(init);
      var brk := init != [] && Break(init[|init| - 1].y, f.y);
      var r := AddFragment(ls, f, brk);
      assert Lines(fs) == r;
      assert Flatten(r) == init + [f] && InnerJoined(r) && BrokenBetween(r) by {
        LinesPartition(init);
        if ls != [] {
          assert ls[|ls| - 1] != [];
          FlattenLast(ls);
          assert init[|init| - 1] == ls[|ls| - 1][|ls[|ls| - 1]| - 1];
        }
        AddFlatten(ls, f, brk);
        AddBetween(ls, f, brk);
      }
      assert fs == init + [f];
    }
  }

  /** The last fragment of a grouping is the last fragment of its last line. */
  lemma FlattenLast(gs: seq<seq<Fragment>>)
    requires gs != [] && gs[|gs| - 1] != []
    ensures Flatten(gs) != [] && Flatten(gs)[|Flatten(gs)| - 1] == gs[|gs| - 1][|gs[|gs| - 1]| - 1]
  {
    var g := gs[|gs| - 1];
    assert Flatten(gs) == Flatten(gs[..|gs| - 1]) + g;
  }

  lemma LinesSnoc(fs: seq<Fragment>, f: Fragment)
    ensures Lines(fs + [f]) == AddFragment(Lines(fs), f, fs != [] && Break(fs[|fs| - 1].y, f.y))
  {
    assert (fs + [f])[..|fs|] == fs;
  }

  /** The text of one line: its fragments' strings joined by `JoinText`, starting from the empty line. */
  function LineText(g: seq<Fragment>): string
    decreases |g|
  {
    if g == [] then "" else JoinText(LineText(g[..|g| - 1]), g[|g| - 1].str)
  }

  /** Each line's text, trimmed. */
  function TrimmedLines(gs: seq<seq<Fragment>>): (r: seq<string>)
    ensures |r| == |gs|
    decreases |gs|
  {
    if gs == [] then [] else TrimmedLines(gs[..|gs| - 1]) + [Trim(LineText(gs[|gs| - 1]))]
  }

  lemma {:induction false} TrimmedLinesAt(gs: seq<seq<Fragment>>, i: nat)
    requires i < |gs|
    ensures TrimmedLines(gs)[i] == Trim(LineText(gs[i]))
    decreases |gs|
  {
    var init := gs[..|gs| - 1];
    assert TrimmedLines(gs) == TrimmedLines(init) + [Trim(LineText(gs[|gs| - 1]))];
    if i < |gs| - 1 {
      TrimmedLinesAt(init, i);
      assert init[i] == gs[i];
    }
  }

  /** The non-empty strings of `ts`, in order. */
  function NonBlank(ts: seq<string>): seq<string>
    decreases |ts|
  {
    if ts == [] then []
    else NonBlank(ts[..|ts| - 1]) + (if ts[|ts| - 1] != "" then [ts[|ts| - 1]] else [])
  }

  /** The lines written out: each line's text trimmed, the blank ones dropped. */
  function Emitted(gs: seq<seq<Fragment>>): seq<string> {
    NonBlank(TrimmedLines(gs))
  }

  /** Each written line followed by its newline. */
  function ConcatLines(ls: seq<string>): string
    decreases |ls|
  {
    if ls == [] then "" else ConcatLines(ls[..|ls| - 1]) + ls[|ls| - 1] + "\n"
  }

  /** The text of a page: its visible fragments grouped into lines, each non-blank line trimmed and ended by a newline. */
  function PageText(items: seq<Fragment>): string {
    ConcatLines(Emitted(Lines(Visible(items))))
  }

  lemma {:induction false} NonBlankOf(ts: seq<string>)
    ensures |NonBlank(ts)| <= |ts|
    ensures forall k :: 0 <= k < |NonBlank(ts)| ==> NonBlank(ts)[k] != "" && NonBlank(ts)[k] in ts
    decreases |ts|
  {
    if ts != [] {
      var init := ts[..|ts| - 1];
      NonBlankOf(init);
      forall k | 0 <= k < |NonBlank(ts)| ensures NonBlank(ts)[k] != "" && NonBlank(ts)[k] in ts {
        if k < |NonBlank(init)| {
          assert NonBlank(ts)[k] == NonBlank(init)[k];
          var j :| 0 <= j < |init| && init[j] == NonBlank(init)[k];
          assert ts[j] == init[j];
        }
      }
    }
  }

  /**
   * What a page writes: no more lines than it has, none blank, each trimmed and each the
   * trimmed text of one of the lines.
   */
  lemma EmittedLines(gs: seq<seq<Fragment>>)
    ensures |Emitted(gs)| <= |gs|
    ensures forall k :: 0 <= k < |Emitted(gs)| ==> Emitted(gs)[k] != "" && AgentFlow.Trimmed(Emitted(gs)[k])
    ensures forall k :: 0 <= k < |Emitted(gs)| ==> exists j :: 0 <= j < |gs| && Emitted(gs)[k] == Trim(LineText(gs[j]))
  {
    var ts := TrimmedLines(gs);
    NonBlankOf(ts);
    forall k | 0 <= k < |Emitted(gs)|
      ensures AgentFlow.Trimmed(Emitted(gs)[k])
      ensures exists j :: 0 <= j < |gs| && Emitted(gs)[k] == Trim(LineText(gs[j]))
    {
      var j :| 0 <= j < |ts| && ts[j] == Emitted(gs)[k];
      TrimmedLinesAt(gs, j);
    }
  }

  lemma EmittedSnoc(gs: seq<seq<Fragment>>, g: seq<Fragment>)
    ensures Emitted(gs + [g]) == Emitted(gs) + (if Trim(LineText(g)) != "" then [Trim(LineText(g))] else [])
  {
    TrimmedLinesSnoc(gs, g);
    NonBlankSnoc(TrimmedLines(gs), Trim(LineText(g)));
  }

  lemma TrimmedLinesSnoc(gs: seq<seq<Fragment>>, g: seq<Fragment>)
    ensures TrimmedLines(gs + [g]) == TrimmedLines(gs) + [Trim(LineText(g))]
  {
    assert (gs + [g])[..|gs|] == gs;
  }

  lemma NonBlankSnoc(ts: seq<string>, t: string)
    ensures NonBlank(ts + [t]) == NonBlank(ts) + (if t != "" then [t] else [])
  {
    assert (ts + [t])[..|ts|] == ts;
  }

  lemma ConcatLinesSnoc(ls: seq<string>, l: string)
    ensures ConcatLines(ls + [l]) == ConcatLines(ls) + l + "\n"
  {
    assert (ls + [l])[..|ls|] == ls;
  }

  /** The text written for every line but the last of `ls`, and the open last line; nothing before the first fragment. */
  ghost predicate Assembled(ls: seq<seq<Fragment>>, full: string, line: string) {
    if ls == [] then full == "" && line == ""
    else full == ConcatLines(Emitted(ls[..|ls| - 1])) && line == LineText(ls[|ls| - 1])
  }

  /** The open line written out, unless it is blank. */
  function Flushed(full: string, line: string): string {
    if Trim(line) != "" then full + Trim(line) + "\n" else full
  }

  /** One more fragment keeps the text and the open line in step with the grouping. */
  lemma Step(ls: seq<seq<Fragment>>, full: string, line: string, f: Fragment, brk: bool)
    requires Assembled(ls, full, line)
    ensures Assembled(AddFragment(ls, f, brk), if brk then Flushed(full, line) else full, if brk then f.str else JoinText(line, f.str))
  {
    if ls == [] {
      StepFirst(f, brk);
    } else if brk {
      StepBreak(ls, full, line, f);
    } else {
      StepJoin(ls, full, line, f);
    }
  }

  lemma StepFirst(f: Fragment, brk: bool)
    ensures Assembled([[f]], "", f.str)
    ensures Flushed("", "") == ""
    ensures JoinText("", f.str) == f.str
  {
    assert [[f]][..0] == [];
    LineTextOne(f);
    TrimEmpty();
  }

  lemma StepBreak(ls: seq<seq<Fragment>>, full: string, line: string, f: Fragment)
    requires ls != [] && Assembled(ls, full, line)
    ensures Assembled(ls + [[f]], Flushed(full, line), f.str)
  {
    StepLast(ls, full, line);
    var ls1 := ls + [[f]];
    assert ls1[..|ls1| - 1] == ls;
    LineTextOne(f);
  }

  lemma StepJoin(ls: seq<seq<Fragment>>, full: string, line: string, f: Fragment)
    requires ls != [] && Assembled(ls, full, line)
    ensures Assembled(ls[..|ls| - 1] + [ls[|ls| - 1] + [f]], full, JoinText(line, f.str))
  {
    var front := ls[..|ls| - 1];
    var last := ls[|ls| - 1];
    var ls1 := front + [last + [f]];
    assert ls1[..|ls1| - 1] == front;
    assert (last + [f])[..|last|] == last;
  }

  lemma LineTextOne(f: Fragment)
    ensures LineText([f]) == f.str
  {
    assert [f][..0] == [];
  }

  /** The grouping of one more fragment, as the loop sees it. */
  lemma LinesNext(frags: seq<Fragment>, i: nat, lastY: int)
    requires i < |frags|
    requires i == 0 ==> lastY == -1
    requires i > 0 ==> lastY == frags[i - 1].y
    ensures Lines(frags[..i + 1]) == AddFragment(Lines(frags[..i]), frags[i], Break(lastY, frags[i].y))
  {
    assert frags[..i + 1] == frags[..i] + [frags[i]];
    LinesSnoc(frags[..i], frags[i]);
    if i > 0 {
      assert frags[..i][i - 1] == frags[i - 1];
    }
  }

  /** The last line written out completes the page text. */
  lemma StepLast(ls: seq<seq<Fragment>>, full: string, line: string)
    requires Assembled(ls, full, line)
    ensures ConcatLines(Emitted(ls)) == Flushed(full, line)
  {
    if ls == [] {
      TrimEmpty();
    } else {
      LastLine(ls, full, line);
    }
  }

  lemma LinesSplit(ls: seq<seq<Fragment>>)
    requires ls != []
    ensures ls == ls[..|ls| - 1] + [ls[|ls| - 1]]
  {
  }

  lemma TrimEmpty()
    ensures Trim("") == ""
  {
    assert AllWhitespace("");
  }

  lemma LastLine(ls: seq<seq<Fragment>>, full: string, line: string)
    requires ls != [] && full == ConcatLines(Emitted(ls[..|ls| - 1])) && line == LineText(ls[|ls| - 1])
    ensures ConcatLines(Emitted(ls)) == if Trim(line) != "" then full + Trim(line) + "\n" else full
  {
    var front := ls[..|ls| - 1];
    var last := ls[|ls| - 1];
    LinesSplit(ls);
    EmittedSnoc(front, last);
    if Trim(line) != "" {
      assert Emitted(ls) == Emitted(front) + [Trim(line)];
      ConcatLinesSnoc(Emitted(front), Trim(line));
    } else {
      assert Emitted(ls) == Emitted(front) + [];
      assert Emitted(front) + [] == Emitted(front);
    }
  }

  /** One turn of the line loop: a fragment that breaks writes out the open line, if it is not blank, and starts the next; any other joins the open line. */
  method Feed(text: string, line: string, lastY: int, f: Fragment) returns (text1: string, line1: string)
    ensures Break(lastY, f.y) ==> text1 == Flushed(text, line) && line1 == f.str
    ensures !Break(lastY, f.y) ==> text1 == text && line1 == JoinText(line, f.str)
  {
    text1, line1 := text, line;
    if lastY != -1 && (if lastY >= f.y then lastY - f.y else f.y - lastY) > 5 {
      if Trim(line1) != "" {
        text1 := text1 + Trim(line1) + "\n";
      }
      line1 := f.str;
    } else {
      if line1 != "" && !EndsWith(line1, " ") && !StartsWith(f.str, " ") {
        line1 := line1 + " ";
      }
      line1 := line1 + f.str;
    }
  }

  /** One turn of the line loop keeps the loop's invariant. */
  lemma AssembleStep(frags: seq<Fragment>, i: nat, lastY: int, ls: seq<seq<Fragment>>, text: string, line: string, text1: string, line1: string)
    requires i < |frags|
    requires i == 0 ==> lastY == -1
    requires i > 0 ==> lastY == frags[i - 1].y
    requires ls == Lines(frags[..i]) && Assembled(ls, text, line)
    requires Break(lastY, frags[i].y) ==> text1 == Flushed(text, line) && line1 == frags[i].str
    requires !Break(lastY, frags[i].y) ==> text1 == text && line1 == JoinText(line, frags[i].str)
    ensures AddFragment(ls, frags[i], Break(lastY, frags[i].y)) == Lines(frags[..i + 1])
    ensures Assembled(AddFragment(ls, frags[i], Break(lastY, frags[i].y)), text1, line1)
  {
    LinesNext(frags, i, lastY);
    Step(ls, text, line, frags[i], Break(lastY, frags[i].y));
  }

  /** The loop over one page's fragments, as `extractTextFromPdf` runs it; returns the page's contribution to the text. */
  method AssemblePage(items: seq<Fragment>) returns (text: string)
    ensures text == PageText(items)
  {
    var frags := Visible(items);
    text := "";
    var lastY := -1;
    var line := "";
    var i := 0;
    ghost var ls: seq<seq<Fragment>> := [];
    while i < |frags|
      invariant 0 <= i <= |frags|
      invariant ls == Lines(frags[..i]) && Assembled(ls, text, line)
      invariant i == 0 ==> lastY == -1
      invariant i > 0 ==> lastY == frags[i - 1].y
    {
      var f := frags[i];
      var text1, line1 := Feed(text, line, lastY, f);
      AssembleStep(frags, i, lastY, ls, text, line, text1, line1);
      ls, text, line := AddFragment(ls, f, Break(lastY, f.y)), text1, line1;
      lastY := f.y;
      i := i + 1;
    }
    ghost var before := text;
    text := Flush(text, line);
    AssembleEnd(items, ls, before, line, text);
  }

  /** When the loop is over, the flush completes the page's text. */
  lemma AssembleEnd(items: seq<Fragment>, ls: seq<seq<Fragment>>, text: string, line: string, text1: string)
    requires ls == Lines(Visible(items)[..|Visible(items)|]) && Assembled(ls, text, line)
    requires text1 == Flushed(text, line)
    ensures text1 == PageText(items)
  {
    assert Visible(items)[..|Visible(items)|] == Visible(items);
    StepLast(ls, text, line);
  }

  /** After the loop: the open line written out, unless it is blank. */
  method Flush(text: string, line: string) returns (text1: string)
    ensures text1 == Flushed(text, line)
  {
    text1 := text;
    if Trim(line) != "" {
      text1 := text1 + Trim(line) + "\n";
    }
  }

  /** The separator written after every page but the last. */
  const PageBreak := "\n--- Page Break ---\n\n"

  function PageTexts(pages: seq<seq<Fragment>>): (r: seq<string>)
    ensures |r| == |pages|
  {
    seq(|pages|, i requires 0 <= i < |pages| => PageText(pages[i]))
  }

  /** The text of the document: the page texts with a page break between consecutive pages, trimmed. */
  function DocText(pages: seq<seq<Fragment>>): string {
    Trim(Join(PageTexts(pages), PageBreak))
  }

  lemma {:induction false} JoinSnoc(xs: seq<string>, x: string, sep: string)
    requires xs != []
    ensures Join(xs + [x], sep) == Join(xs, sep) + sep + x
    decreases |xs|
  {
    if |xs| == 1 {
      assert (xs + [x])[1..] == [x];
    } else {
      assert (xs + [x])[1..] == xs[1..] + [x];
      JoinSnoc(xs[1..], x, sep);
    }
  }

  /** The text after the first `i` pages: their texts joined by page breaks, and a break after the last unless it ends the document. */
  function Written(texts: seq<string>, i: nat): string
    requires i <= |texts|
  {
    if i == 0 then "" else Join(texts[..i], PageBreak) + (if i < |texts| then PageBreak else "")
  }

  lemma WrittenStep(texts: seq<string>, i: nat)
    requires i < |texts|
    ensures Written(texts, i + 1) == Written(texts, i) + texts[i] + (if i + 1 < |texts| then PageBreak else "")
  {
    assert texts[..i + 1] == texts[..i] + [texts[i]];
    if i == 0 {
      assert texts[..1] == [texts[0]];
    } else {
      JoinSnoc(texts[..i], texts[i], PageBreak);
    }
  }

  lemma WrittenAll(texts: seq<string>)
    ensures Written(texts, |texts|) == Join(texts, PageBreak)
  {
    assert texts[..|texts|] == texts;
  }

  /** `extractTextFromPdf` over the pages of a document that opened. */
  method ExtractText(pages: seq<seq<Fragment>>) returns (text: string)
    ensures text == DocText(pages)
  {
    var full := "";
    var i := 0;
    ghost var texts := PageTexts(pages);
    while i < |pages|
      invariant 0 <= i <= |pages|
      invariant full == Written(texts, i)
    {
      var pageText := AssemblePage(pages[i]);
      WrittenStep(texts, i);
      full := full + pageText;
      if i + 1 < |pages| {
        full := full + PageBreak;
      }
      i := i + 1;
    }
    WrittenAll(texts);
    text := Trim(full);
  }

  /** A one-page document has no page break: its text is the page's text, trimmed. */
  lemma OnePage(page: seq<Fragment>)
    ensures DocText([page]) == Trim(PageText(page))
  {
    assert PageTexts([page]) == [PageText(page)];
  }

  /** With a second page the break stands between the two page texts. */
  lemma TwoPages(p1: seq<Fragment>, p2: seq<Fragment>)
    ensures DocText([p1, p2]) == Trim(PageText(p1) + PageBreak + PageText(p2))
  {
    var a := PageText(p1);
    var b := PageText(p2);
    assert PageTexts([p1, p2]) == [a, b];
    assert [a, b][1..] == [b];
    assert Join([a, b], PageBreak) == a + PageBreak + b;
  }

  // ---------------------------------------------------------------------------
  // The chat state.

  /** A message on the page; `role` is `user` or `model`. */
  datatype ChatMessage = ChatMessage(role: string, content: string)

  /** The chosen file: its name and what reading it as a PDF gives, the pages' fragments or a failure. */
  datatype ResumeFile = ResumeFile(name: string, pages: Outcome<seq<seq<Fragment>>>)

  /** The body posted to the agent route. */
  datatype AgentRequest = AgentRequest(history: seq<AgentFlow.Message>, prompt: string)

  /** How the agent route answered: an OK body's `response`, a failed status with the body's `message` (possibly absent or empty), or a request that threw. */
  datatype ApiReply = Replied(response: string) | Refused(message: Option<string>) | Unreachable(error: string)

  const Greeting := "\U{1F44B} Hello! I'm your **AI Career Agent** powered by Llama 3.1.\n\nI can help you:\n- \U{1F4CA} Analyze your resume against job descriptions\n- \U{1F3AF} Identify skill gaps and strengths\n- \U{1F4BC} Generate interview practice questions\n- \U{1F680} Provide career guidance\n\n**To get started:** Share a job description you're interested in, then upload your resume for analysis!"

  const ErrorPrefix := "Sorry, an error occurred: "
  const DefaultError := "The agent failed to respond."

  /** The note a message carries about the attached file. */
  function FileNote(name: string): string {
    "[Attached Resume: " + name + "]"
  }

  /** The messages after the typed text, when it is not blank, is added as a user message. */
  function WithInput(messages: seq<ChatMessage>, input: string): (r: seq<ChatMessage>)
    ensures !AllWhitespace(input) ==> r == messages + [ChatMessage("user", input)]
    ensures AllWhitespace(input) ==> r == messages
  {
    if !AllWhitespace(input) then messages + [ChatMessage("user", input)] else messages
  }

  /** The file note joins the last message when that is the user's, and is a user message of its own otherwise. */
  function WithFile(messages: seq<ChatMessage>, name: string): (r: seq<ChatMessage>)
    ensures |r| >= 1 && r[|r| - 1].role == "user" && EndsWith(r[|r| - 1].content, FileNote(name))
    ensures messages != [] && messages[|messages| - 1].role == "user" ==>
              r == messages[..|messages| - 1] + [ChatMessage("user", messages[|messages| - 1].content + "\n\n" + FileNote(name))]
    ensures !(messages != [] && messages[|messages| - 1].role == "user") ==> r == messages + [ChatMessage("user", FileNote(name))]
  {
    var note := FileNote(name);
    if messages != [] && messages[|messages| - 1].role == "user" then
      var c := messages[|messages| - 1].content + "\n\n" + note;
      assert c[|c| - |note|..] == note;
      messages[..|messages| - 1] + [ChatMessage("user", c)]
    else
      messages + [ChatMessage("user", note)]
  }

  /** The messages shown once a submission goes through. */
  function Posted(messages: seq<ChatMessage>, input: string, file: Option<ResumeFile>): seq<ChatMessage> {
    var m := WithInput(messages, input);
    if file.Some? then WithFile(m, file.value.name) else m
  }

  /** A submission goes ahead with text that is not blank or with a file, unless the file does not read. */
  predicate Proceeds(input: string, file: Option<ResumeFile>) {
    (!AllWhitespace(input) || file.Some?) && !(file.Some? && file.value.pages.Failure?)
  }

  /** The prompt: the typed text, followed by the marked resume text when a file is attached. */
  function PromptFor(input: string, file: Option<ResumeFile>): string
    requires file.Some? ==> file.value.pages.Success?
  {
    if file.Some? then input + AgentFlow.MarkedBlock(DocText(file.value.pages.value)) else input
  }

  /** A shown message as a history entry for the route. */
  function ToHistory(m: ChatMessage): AgentFlow.Message {
    AgentFlow.Message(m.role, [AgentFlow.Part(Some(m.content))])
  }

  function ToHistoryAll(ms: seq<ChatMessage>): (r: seq<AgentFlow.Message>)
    ensures |r| == |ms|
    ensures forall i :: 0 <= i < |ms| ==> r[i] == ToHistory(ms[i])
  {
    seq(|ms|, i requires 0 <= i < |ms| => ToHistory(ms[i]))
  }

  /** The lower end of `slice(Math.max(0, length - 8), -1)`. */
  function WindowStart(n: nat): nat {
    if n >= 8 then n - 8 else 0
  }

  /** The history sent: the last eight messages shown, without the newest. */
  function HistoryFor(ms: seq<ChatMessage>): seq<AgentFlow.Message>
    requires ms != []
  {
    ToHistoryAll(ms[WindowStart(|ms|)..|ms| - 1])
  }

  /**
   * The history window: at most seven messages, every one but the newest when there
   * are no more than eight, each carrying the shown message's role and its text as the
   * one part the agent reads, in order.
   */
  lemma HistoryWindow(ms: seq<ChatMessage>)
    requires ms != []
    ensures |HistoryFor(ms)| <= 7
    ensures |ms| <= 8 ==> |HistoryFor(ms)| == |ms| - 1
    ensures |ms| > 8 ==> |HistoryFor(ms)| == 7
    ensures forall j :: 0 <= j < |HistoryFor(ms)| ==>
              var m := ms[|ms| - 1 - |HistoryFor(ms)| + j];
              HistoryFor(ms)[j].role == m.role && AgentFlow.FirstText(HistoryFor(ms)[j]) == m.content
  {
  }

  /** What the page shows for the agent's answer. */
  function ReplyContent(reply: ApiReply): (r: string)
    ensures reply.Replied? ==> r == reply.response
    ensures reply.Refused? && reply.message.Some? && reply.message.value != "" ==> r == ErrorPrefix + reply.message.value
    ensures reply.Refused? && (reply.message.None? || reply.message.value == "") ==> r == ErrorPrefix + DefaultError
    ensures reply.Unreachable? ==> r == ErrorPrefix + reply.error
  {
    match reply
    case Replied(response) => response
    case Refused(message) => ErrorPrefix + (if message.Some? && message.value != "" then message.value else DefaultError)
    case Unreachable(error) => ErrorPrefix + error
  }

  /** The copy of the messages with the typed text and the file note pushed as `handleSubmit` pushes them. */
  method PostMessages(messages: seq<ChatMessage>, input: string, file: Option<ResumeFile>) returns (shown: seq<ChatMessage>)
    ensures shown == Posted(messages, input, file)
  {
    shown := messages;
    if !AllWhitespace(input) {
      shown := shown + [ChatMessage("user", input)];
    }
    if file.Some? {
      var note := "[Attached Resume: " + file.value.name + "]";
      if |shown| > 0 && shown[|shown| - 1].role == "user" {
        shown := shown[..|shown| - 1] + [ChatMessage("user", shown[|shown| - 1].content + "\n\n" + note)];
      } else {
        shown := shown + [ChatMessage("user", note)];
      }
    }
  }

  /** The prompt built while the file is read: the typed text and, when a file is attached, its marked text. */
  method CombinedPrompt(input: string, file: Option<ResumeFile>) returns (prompt: string)
    requires file.Some? ==> file.value.pages.Success?
    ensures prompt == PromptFor(input, file)
  {
    prompt := input;
    if file.Some? {
      var resume := ExtractText(file.value.pages.value);
      prompt := prompt + AgentFlow.MarkedBlock(resume);
    }
  }

  /** `newMessages.slice(Math.max(0, newMessages.length - 8), -1).map(...)`. */
  method SliceHistory(shown: seq<ChatMessage>) returns (history: seq<AgentFlow.Message>)
    requires shown != []
    ensures history == HistoryFor(shown)
  {
    var n := |shown|;
    var lo := if n - 8 > 0 then n - 8 else 0;
    history := [];
    var i := lo;
    while i < n - 1
      invariant lo <= i <= n - 1
      invariant history == ToHistoryAll(shown[lo..i])
    {
      history := history + [AgentFlow.Message(shown[i].role, [AgentFlow.Part(Some(shown[i].content))])];
      assert shown[lo..i + 1] == shown[lo..i] + [shown[i]];
      i := i + 1;
    }
  }

  /** The page's state: the messages shown, the text box, the chosen file and whether an answer is awaited. */
  class AgentChat {
    var messages: seq<ChatMessage>
    var input: string
    var file: Option<ResumeFile>
    var loading: bool

    /** The page opens with the agent's greeting, an empty box and no file. */
    constructor ()
      ensures messages == [ChatMessage("model", Greeting)] && input == "" && file == None && !loading
    {
      messages := [ChatMessage("model", Greeting)];
      input := "";
      file := None;
      loading := false;
    }

    method SetInput(text: string)
      modifies this
      ensures input == text && messages == old(messages) && file == old(file) && loading == old(loading)
    {
      input := text;
    }

    /** The file input's change: the first chosen file, or none. */
    method ChooseFile(chosen: Option<ResumeFile>)
      modifies this
      ensures file == chosen && messages == old(messages) && input == old(input) && loading == old(loading)
    {
      file := chosen;
    }

    /**
     * `handleSubmit` up to the request: nothing happens for blank text without a file;
     * a file that does not read leaves the messages, the text and the file as they were;
     * otherwise the new messages are shown, the box and the file are cleared, and the
     * request carries the history window and the prompt with the marked resume text.
     */
    method Submit() returns (req: Option<AgentRequest>)
      modifies this
      ensures AllWhitespace(old(input)) && old(file).None? ==>
                req.None? && messages == old(messages) && input == old(input) && file == old(file) && loading == old(loading)
      ensures old(file).Some? && old(file).value.pages.Failure? ==>
                req.None? && messages == old(messages) && input == old(input) && file == old(file) && !loading
      ensures Proceeds(old(input), old(file)) ==>
                messages == Posted(old(messages), old(input), old(file)) && input == "" && file.None? && loading
                && req == Some(AgentRequest(HistoryFor(messages), PromptFor(old(input), old(file))))
    {
      if AllWhitespace(input) && file.None? {
        return None;
      }
      loading := true;
      var shown := PostMessages(messages, input, file);
      if file.Some? && file.value.pages.Failure? {
        loading := false;
        return None;
      }
      var prompt := CombinedPrompt(input, file);
      messages := shown;
      input := "";
      file := None;
      var history := SliceHistory(shown);
      req := Some(AgentRequest(history, prompt));
    }

    /** The answer, or the error text, appended as the agent's message; the wait is over. */
    method Receive(reply: ApiReply)
      modifies this
      ensures messages == old(messages) + [ChatMessage("model", ReplyContent(reply))]
      ensures input == old(input) && file == old(file) && !loading
    {
      var content := match reply
        case Replied(response) => response
        case Refused(message) => "Sorry, an error occurred: " + (if message.Some? && message.value != "" then message.value else "The agent failed to respond.")
        case Unreachable(error) => "Sorry, an error occurred: " + error;
      messages := messages + [ChatMessage("model", content)];
      loading := false;
    }
  }

  /**
   * The resume round trip from the page to the agent: when the history and the typed
   * text hold no header and the extracted text no end marker, the agent's resume is
   * exactly the text the page extracted from the file.
   */
  lemma AttachedResumeRecovered(messages: seq<ChatMessage>, input: string, file: ResumeFile,
                                legacy: string -> Option<string>)
    requires file.pages.Success?
    requires !ContainsIgnoringCase(AgentFlow.Context(HistoryFor(Posted(messages, input, Some(file)))) + "User: " + input,
                                   AgentFlow.ResumeHeader)
    requires !ContainsIgnoringCase(DocText(file.pages.value), AgentFlow.ResumeEnd)
    ensures AgentFlow.ResumeText(AgentFlow.FullContext(HistoryFor(Posted(messages, input, Some(file))), PromptFor(input, Some(file))), legacy)
            == DocText(file.pages.value)
  {
    var h := HistoryFor(Posted(messages, input, Some(file)));
    var t := DocText(file.pages.value);
    var prefix := AgentFlow.Context(h) + "User: " + input;
    assert AgentFlow.FullContext(h, PromptFor(input, Some(file))) == prefix + AgentFlow.MarkedBlock(t);
    AgentFlow.MarkedResumeRecovered(prefix, t, legacy);
  }

  /** The newest message is never in the history: a submission's own text travels only in the prompt. */
  lemma NewestOnlyInPrompt(messages: seq<ChatMessage>, input: string, file: Option<ResumeFile>)
    requires Proceeds(input, file)
    ensures var ms := Posted(messages, input, file);
            ms != [] && ms[|ms| - 1].role == "user"
            && |HistoryFor(ms)| == |ms| - 1 - WindowStart(|ms|)
            && (file.None? ==> ms[|ms| - 1].content == input)
            && (file.Some? ==> EndsWith(ms[|ms| - 1].content, FileNote(file.value.name)))
  {
  }
}
