// The conversational career agent: it builds a context string from the history and
// the prompt, finds a resume (the block the chat page marks, else an older format)
// and a job description in it, and chooses between running the skill analysis,
// generating interview questions, and a plain chat reply of the model service.
module AgentFlow {
  import opened Text
  import opened Outcomes
  import opened JsonValues
  import InterviewFlow
  import SkillMatching

  // ---------------------------------------------------------------------------
  // The context string.

  /** A content part of a history message; its `text` may be absent. */
  datatype Part = Part(text: Option<string>)

  datatype Message = Message(role: string, content: seq<Part>)

  /** `msg.content?.[0]?.text || ''`. */
  function FirstText(m: Message): string {
    if m.content != [] && m.content[0].text.Some? then m.content[0].text.value else ""
  }

  function RoleLabel(m: Message): string {
    if m.role == "user" then "User" else "Agent"
  }

  /** The line one history message contributes. */
  function Entry(m: Message): string {
    RoleLabel(m) + ": " + FirstText(m) + "\n\n"
  }

  /** The context of the history: its entries in order. */
  function Context(history: seq<Message>): string
    decreases |history|
  {
    if history == [] then "" else Context(history[..|history| - 1]) + Entry(history[|history| - 1])
  }

  /** The context of a split history is the contexts of its parts, one after the other. */
  lemma {:induction false} ContextAppend(a: seq<Message>, b: seq<Message>)
    ensures Context(a + b) == Context(a) + Context(b)
    decreases |b|
  {
    if b == [] {
      assert a + b == a;
    } else {
      var b0 := b[..|b| - 1];
      var m := b[|b| - 1];
      assert b == b0 + [m];
      assert a + b == (a + b0) + [m];
      ContextSnoc(a + b0, m);
      ContextAppend(a, b0);
      ContextSnoc(b0, m);
      AppendAssoc(Context(a), Context(b0), Entry(m));
    }
  }

  lemma ContextSnoc(h: seq<Message>, m: Message)
    ensures Context(h + [m]) == Context(h) + Entry(m)
  {
    assert (h + [m])[..|h|] == h;
  }

  /** Every message's entry, and so its text, appears in the context. */
  lemma {:induction false} ContextHasEntry(history: seq<Message>, k: nat)
    requires k < |history|
    ensures Contains(Context(history), Entry(history[k]))
    decreases |history|
  {
    var init := history[..|history| - 1];
    var last := Entry(history[|history| - 1]);
    assert Context(history) == Context(init) + last;
    if k == |history| - 1 {
      ContainsSelf(last);
      ContainsAfter(Context(init), last, last);
    } else {
      assert init[k] == history[k];
      ContextHasEntry(init, k);
      ContainsBefore(Context(init), last, Entry(history[k]));
    }
  }

  /** The `for (const msg of history)` loop. */
  method BuildContext(history: seq<Message>) returns (ctx: string)
    ensures ctx == Context(history)
  {
    ctx := "";
    var i := 0;
    while i < |history|
      invariant 0 <= i <= |history|
      invariant ctx == Context(history[..i])
    {
      var m := history[i];
      var role := if m.role == "user" then "User" else "Agent";
      var text := if m.content != [] && m.content[0].text.Some? then m.content[0].text.value else "";
      var entry := role + ": " + text + "\n\n";
      assert entry == Entry(m);
      assert history[..i + 1][..i] == history[..i];
      assert Context(history[..i + 1]) == Context(history[..i]) + entry;
      ctx := ctx + entry;
      i := i + 1;
    }
    assert history[..i] == history;
  }

  /** The context followed by the current prompt. */
  function FullContext(history: seq<Message>, prompt: string): string {
    Context(history) + "User: " + prompt
  }

  // ---------------------------------------------------------------------------
  // The marked resume block.

  const ResumeHeader := "**RESUME CONTENT PROVIDED:**"
  const ResumeIntro := "Here is the resume text:"
  const ResumeEnd := "**END OF RESUME CONTENT**"

  predicate NoNewline(p: string) {
    forall k :: 0 <= k < |p| ==> p[k] != '\n'
  }

  /** The facts about the three markers the matcher relies on. */
  lemma MarkerFacts()
    ensures |ResumeHeader| > 0 && ResumeHeader[0] == '*' && NoNewline(ResumeHeader)
    ensures |ResumeIntro| > 0 && !IsWhitespace(ResumeIntro[0])
    ensures |ResumeEnd| > 0 && ResumeEnd[0] == '*' && NoNewline(ResumeEnd)
  {
  }

  /** The end of the run of whitespace starting at `k`. */
  function SkipWs(s: string, k: nat): (r: nat)
    requires k <= |s|
    ensures k <= r <= |s|
    ensures r == |s| || !IsWhitespace(s[r])
    decreases |s| - k
  {
    if k < |s| && IsWhitespace(s[k]) then SkipWs(s, k + 1) else k
  }

  /** What `SkipWs` passes over is whitespace. */
  lemma {:induction false} SkipWsRun(s: string, k: nat)
    requires k <= |s|
    ensures forall j :: k <= j < SkipWs(s, k) ==> IsWhitespace(s[j])
    decreases |s| - k
  {
    if k < |s| && IsWhitespace(s[k]) {
      SkipWsRun(s, k + 1);
    }
  }

  /** The start of the run of whitespace ending at `e`, not going below `lo`. */
  function BackWs(s: string, lo: nat, e: nat): (r: nat)
    requires lo <= e <= |s|
    ensures lo <= r <= e
    ensures r == lo || !IsWhitespace(s[r - 1])
    decreases e
  {
    if e > lo && IsWhitespace(s[e - 1]) then BackWs(s, lo, e - 1) else e
  }

  /** What `BackWs` passes over is whitespace. */
  lemma {:induction false} BackWsRun(s: string, lo: nat, e: nat)
    requires lo <= e <= |s|
    ensures forall j :: BackWs(s, lo, e) <= j < e ==> IsWhitespace(s[j])
    decreases e
  {
    if e > lo && IsWhitespace(s[e - 1]) {
      BackWsRun(s, lo, e - 1);
    }
  }

  /** `pat` occurs in `s` at position `i`, comparing letters case-insensitively. */
  predicate MatchAt(s: string, i: nat, pat: string)
    decreases |pat|
  {
    i + |pat| <= |s| && (pat == [] || (SameIgnoringCase(s[i], pat[0]) && MatchAt(s, i + 1, pat[1..])))
  }

  /** The occurrence character by character. */
  lemma {:induction false} MatchAtChars(s: string, i: nat, pat: string)
    ensures MatchAt(s, i, pat) <==> i + |pat| <= |s| && forall k :: 0 <= k < |pat| ==> SameIgnoringCase(s[i + k], pat[k])
    decreases |pat|
  {
    if pat != [] && i + |pat| <= |s| {
      MatchAtChars(s, i + 1, pat[1..]);
      assert forall k :: 1 <= k < |pat| ==> pat[1..][k - 1] == pat[k];
    }
  }

  /** The first position from `p` on where `pat` occurs, ignoring case. */
  function FirstAt(s: string, pat: string, p: nat): (r: Option<nat>)
    requires p <= |s|
    ensures r.Some? ==> p <= r.value <= |s| && MatchAt(s, r.value, pat)
    decreases |s| - p
  {
    if MatchAt(s, p, pat) then Some(p)
    else if p == |s| then None
    else FirstAt(s, pat, p + 1)
  }

  /** The search finds the first occurrence from `p` on, and finds none only when there is none. */
  lemma {:induction false} FirstAtSpec(s: string, pat: string, p: nat)
    requires p <= |s|
    ensures var r := FirstAt(s, pat, p);
            (r.Some? ==> forall j :: p <= j < r.value ==> !MatchAt(s, j, pat))
            && (r.None? ==> forall j :: p <= j <= |s| ==> !MatchAt(s, j, pat))
    decreases |s| - p
  {
    if !MatchAt(s, p, pat) && p < |s| {
      FirstAtSpec(s, pat, p + 1);
    }
  }

  /** A stretch `lo..hi` of the text: the span of a captured group. */
  datatype Span = Span(lo: nat, hi: nat)

  /**
   * The marked-block pattern `head \s* intro \s* ([\s\S]*?) \s* end` with the `i` flag,
   * tried at position `i`, giving the span of its group. The intro and the end marker
   * begin with a character that is not whitespace, so each `\s*` before them takes the
   * whole run of whitespace, and the lazy group ends where the whitespace before the
   * first end marker begins.
   */
  function GroupAt(s: string, i: nat, head: string, intro: string, end: string): (r: Option<Span>)
    requires i <= |s|
    ensures r.Some? ==> r.value.lo <= r.value.hi <= |s|
    ensures r.Some? && r.value.lo < r.value.hi ==> !IsWhitespace(s[r.value.lo]) && !IsWhitespace(s[r.value.hi - 1])
  {
    if !MatchAt(s, i, head) then None
    else
      var p1 := SkipWs(s, i + |head|);
      if !MatchAt(s, p1, intro) then None
      else
        var p := SkipWs(s, p1 + |intro|);
        match FirstAt(s, end, p)
        case None => None
        case Some(e) => Some(Span(p, BackWs(s, p, e)))
  }

  /** The group the pattern captures at `i`: it has no whitespace at either end. */
  function BlockAt(s: string, i: nat, head: string, intro: string, end: string): (r: Option<string>)
    requires i <= |s|
    ensures r.Some? <==> GroupAt(s, i, head, intro, end).Some?
    ensures r.Some? ==> Trimmed(r.value)
  {
    match GroupAt(s, i, head, intro, end)
    case None => None
    case Some(g) =>
      var x := s[g.lo..g.hi];
      assert x != [] ==> x[0] == s[g.lo] && x[|x| - 1] == s[g.hi - 1];
      Some(x)
  }

  /** The leftmost position in `from..last` where `found` holds: a regex search tries the start positions in turn. */
  function Leftmost(found: nat -> bool, from: nat, last: nat): (r: Option<nat>)
    ensures r.Some? ==> from <= r.value <= last
    decreases last + 1 - from
  {
    if from > last then None
    else if found(from) then Some(from)
    else Leftmost(found, from + 1, last)
  }

  /** The search returns a position where `found` holds and none before it, or `None` when it holds nowhere. */
  lemma {:induction false} LeftmostSpec(found: nat -> bool, from: nat, last: nat)
    ensures var r := Leftmost(found, from, last);
            (r.Some? ==> from <= r.value <= last && found(r.value) && forall j :: from <= j < r.value ==> !found(j))
            && (r.None? ==> forall j :: from <= j <= last ==> !found(j))
    decreases last + 1 - from
  {
    if from <= last && !found(from) {
      LeftmostSpec(found, from + 1, last);
    }
  }

  /** The search stops at the first position where `found` holds. */
  lemma {:induction false} LeftmostAt(found: nat -> bool, from: nat, i: nat, last: nat)
    requires from <= i <= last && found(i)
    requires forall j :: from <= j < i ==> !found(j)
    ensures Leftmost(found, from, last) == Some(i)
    decreases i - from
  {
    if from < i {
      LeftmostAt(found, from + 1, i, last);
    }
  }

  /** The start positions where the block pattern matches. */
  function Matches(s: string, head: string, intro: string, end: string): nat -> bool {
    (j: nat) => j <= |s| && BlockAt(s, j, head, intro, end).Some?
  }

  /** The leftmost position from `from` on where the block pattern matches. */
  function FirstBlock(s: string, from: nat, head: string, intro: string, end: string): Option<nat> {
    Leftmost(Matches(s, head, intro, end), from, |s|)
  }

  /** The search finds the leftmost match, and finds none only when there is none. */
  lemma FirstBlockLeftmost(s: string, from: nat, head: string, intro: string, end: string)
    ensures var r := FirstBlock(s, from, head, intro, end);
            (r.Some? ==> from <= r.value <= |s| && BlockAt(s, r.value, head, intro, end).Some?
                         && forall j :: from <= j < r.value ==> BlockAt(s, j, head, intro, end).None?)
            && (r.None? ==> forall j :: from <= j <= |s| ==> BlockAt(s, j, head, intro, end).None?)
  {
    var found := Matches(s, head, intro, end);
    LeftmostSpec(found, from, |s|);
    var r := FirstBlock(s, from, head, intro, end);
    if r.Some? {
      assert found(r.value);
      forall j | from <= j < r.value ensures BlockAt(s, j, head, intro, end).None? {
        assert !found(j);
      }
    } else {
      forall j | from <= j <= |s| ensures BlockAt(s, j, head, intro, end).None? {
        assert !found(j);
      }
    }
  }

  /** `fullContext.match(<marked block>)`: the group of the leftmost match. */
  function MarkedResume(s: string): (r: Option<string>)
    ensures r.Some? ==> Trimmed(r.value)
  {
    match FirstBlock(s, 0, ResumeHeader, ResumeIntro, ResumeEnd)
    case None => None
    case Some(i) => BlockAt(s, i, ResumeHeader, ResumeIntro, ResumeEnd)
  }

  /** `match` succeeds exactly when the pattern matches at some position, and then gives the group of the leftmost match. */
  lemma MarkedResumeLeftmost(s: string)
    ensures MarkedResume(s).Some? <==> exists i :: 0 <= i <= |s| && BlockAt(s, i, ResumeHeader, ResumeIntro, ResumeEnd).Some?
    ensures MarkedResume(s).Some? ==>
              exists i :: 0 <= i <= |s| && MarkedResume(s) == BlockAt(s, i, ResumeHeader, ResumeIntro, ResumeEnd)
                          && forall j :: 0 <= j < i ==> BlockAt(s, j, ResumeHeader, ResumeIntro, ResumeEnd).None?
  {
    FirstBlockLeftmost(s, 0, ResumeHeader, ResumeIntro, ResumeEnd);
    var r := FirstBlock(s, 0, ResumeHeader, ResumeIntro, ResumeEnd);
    if r.Some? {
      var i := r.value;
      assert MarkedResume(s) == BlockAt(s, i, ResumeHeader, ResumeIntro, ResumeEnd);
      assert 0 <= i <= |s| && BlockAt(s, i, ResumeHeader, ResumeIntro, ResumeEnd).Some?;
    }
  }

  /** No whitespace at either end. */
  predicate Trimmed(x: string) {
    x == [] || (!IsWhitespace(x[0]) && !IsWhitespace(x[|x| - 1]))
  }

  /** The captured group has no whitespace at either end, so the `trim` applied to it changes nothing. */
  lemma BlockTrimmed(s: string, i: nat, head: string, intro: string, end: string)
    requires i <= |s| && BlockAt(s, i, head, intro, end).Some?
    ensures Trim(BlockAt(s, i, head, intro, end).value) == BlockAt(s, i, head, intro, end).value
  {
    TrimOfTrimmed(BlockAt(s, i, head, intro, end).value);
  }

  /** `resumeText`: the trimmed group of the marked block; only without one, the older format's extract, trimmed. */
  function ResumeText(full: string, legacy: string -> Option<string>): string {
    match MarkedResume(full)
    case Some(c) => Trim(c)
    case None => if legacy(full).Some? then Trim(legacy(full).value) else ""
  }

  /** The older format is consulted only when no marked block matches: then it cannot change the result. */
  lemma LegacyOnlyWithoutBlock(full: string, legacy1: string -> Option<string>, legacy2: string -> Option<string>)
    requires MarkedResume(full).Some?
    ensures ResumeText(full, legacy1) == ResumeText(full, legacy2) == MarkedResume(full).value
  {
    var c := MarkedResume(full).value;
    TrimOfTrimmed(c);
    assert ResumeText(full, legacy1) == Trim(c);
    assert ResumeText(full, legacy2) == Trim(c);
  }

  /** The text a chat page appends to mark an extracted resume. */
  function MarkedBlock(resume: string): string {
    Wrapped(ResumeHeader, ResumeIntro, resume, ResumeEnd)
  }

  /** A resume between a header line, an intro line and an end marker, after a blank line. */
  function Wrapped(head: string, intro: string, r: string, end: string): string {
    "\n\n" + head + "\n" + intro + "\n" + r + "\n" + end
  }

  /** A newline inside the window rules out a pattern without newlines there, in any case. */
  lemma NotAtNewline(s: string, j: nat, pat: string, k: nat)
    requires j + k < |s| && k < |pat| && s[j + k] == '\n' && NoNewline(pat)
    ensures !MatchAt(s, j, pat)
  {
    MatchAtChars(s, j, pat);
    assert pat[k] != '\n';
  }

  /** A case-insensitive occurrence inside the stretch of `s` that holds `x` is an occurrence in `x`. */
  lemma InWindow(s: string, lo: nat, x: string, pat: string, j: nat)
    requires lo <= j && j + |pat| <= lo + |x| <= |s| && s[lo..lo + |x|] == x
    requires MatchAt(s, j, pat)
    ensures ContainsIgnoringCase(x, pat)
  {
    MatchAtChars(s, j, pat);
    forall k | 0 <= k < |pat| ensures SameIgnoringCase(x[j - lo..][k], pat[k]) {
      assert s[j + k] == s[lo..lo + |x|][j - lo + k];
    }
    assert StartsWithIgnoringCase(x[j - lo..], pat);
  }

  /** An exact occurrence is a case-insensitive one. */
  lemma ExactAt(s: string, i: nat, pat: string)
    requires i + |pat| <= |s| && s[i..i + |pat|] == pat
    ensures MatchAt(s, i, pat)
  {
    forall k | 0 <= k < |pat| ensures SameIgnoringCase(s[i + k], pat[k]) {
      assert s[i + k] == s[i..i + |pat|][k];
    }
    MatchAtChars(s, i, pat);
  }

  /** The search stops at the first match after a stretch of positions without one. */
  lemma FirstBlockAt(s: string, from: nat, i: nat, head: string, intro: string, end: string)
    requires from <= i <= |s| && BlockAt(s, i, head, intro, end).Some?
    requires forall j :: from <= j < i ==> BlockAt(s, j, head, intro, end).None?
    ensures FirstBlock(s, from, head, intro, end) == Some(i)
  {
    var found := Matches(s, head, intro, end);
    assert found(i);
    forall j | from <= j < i ensures !found(j) {
      assert BlockAt(s, j, head, intro, end).None?;
    }
    LeftmostAt(found, from, i, |s|);
  }

  /** The header occurs nowhere up to the two newlines after a text without it. */
  lemma NoHeadBefore(s: string, prefix: string, head: string)
    requires |prefix| + 2 <= |s| && s[..|prefix|] == prefix && s[|prefix|] == '\n' && s[|prefix| + 1] == '\n'
    requires head != [] && NoNewline(head) && !ContainsIgnoringCase(prefix, head)
    ensures forall j :: 0 <= j < |prefix| + 2 ==> !MatchAt(s, j, head)
  {
    var a := |prefix|;
    assert s[0..a] == prefix;
    forall j | 0 <= j < a + 2 ensures !MatchAt(s, j, head) {
      if j + |head| <= a {
        if MatchAt(s, j, head) {
          InWindow(s, 0, prefix, head, j);
        }
      } else if j < a {
        NotAtNewline(s, j, head, a - j);
      } else {
        NotAtNewline(s, j, head, 0);
      }
    }
  }

  /** `pat` occurs nowhere inside `lo..hi`. */
  predicate NoMatchIn(s: string, lo: nat, hi: nat, pat: string) {
    forall j :: lo <= j && j + |pat| <= hi ==> !MatchAt(s, j, pat)
  }

  /** A text without `pat`, lying in `s` from `lo` on, leaves no occurrence of `pat` inside its stretch. */
  lemma NoMatchWithin(s: string, lo: nat, x: string, pat: string)
    requires lo + |x| <= |s| && s[lo..lo + |x|] == x && !ContainsIgnoringCase(x, pat)
    ensures NoMatchIn(s, lo, lo + |x|, pat)
  {
    forall j | lo <= j && j + |pat| <= lo + |x| ensures !MatchAt(s, j, pat) {
      if MatchAt(s, j, pat) {
        InWindow(s, lo, x, pat, j);
      }
    }
  }

  /** After a stretch of `n` characters without the end marker and the newline that follows it, the end marker is found first at its own position. */
  lemma EndAfter(s: string, p: nat, rs: nat, n: nat, end: string, e: nat)
    requires e == rs + n + 1
    requires e + |end| <= |s| && s[e - 1] == '\n' && s[e..e + |end|] == end
    requires p == rs || (n == 0 && p == e)
    requires end != [] && NoNewline(end) && NoMatchIn(s, rs, rs + n, end)
    ensures FirstAt(s, end, p) == Some(e)
  {
    forall j | p <= j < e ensures !MatchAt(s, j, end) {
      if j + |end| <= rs + n {
      } else if j < e - 1 {
        NotAtNewline(s, j, end, e - 1 - j);
      } else {
        NotAtNewline(s, j, end, 0);
      }
    }
    ExactAt(s, e, end);
    FirstAtAt(s, end, p, e);
  }

  /** The search stops at an occurrence with none before it. */
  lemma {:induction false} FirstAtAt(s: string, pat: string, p: nat, e: nat)
    requires p <= e <= |s| && MatchAt(s, e, pat)
    requires forall j :: p <= j < e ==> !MatchAt(s, j, pat)
    ensures FirstAt(s, pat, p) == Some(e)
    decreases e - p
  {
    if p < e {
      FirstAtAt(s, pat, p + 1, e);
    }
  }

  /**
   * After the intro, at `q`: a newline, the resume `r`, a newline and the end marker;
   * the resume has no whitespace at its ends and does not contain the end marker.
   */
  predicate ResumeLineAt(s: string, q: nat, r: string, end: string) {
    q + |r| + 2 + |end| <= |s| && s[q] == '\n' && s[q + 1..q + 1 + |r|] == r
    && s[q + 1 + |r|] == '\n' && s[q + |r| + 2..q + |r| + 2 + |end|] == end
    && end != [] && NoNewline(end) && !IsWhitespace(end[0])
    && NoMatchIn(s, q + 1, q + 1 + |r|, end) && Trimmed(r)
  }

  /** The group the pattern captures after the intro: the resume, up to the newline before the end marker. */
  lemma CaptureResume(s: string, q: nat, r: string, end: string)
    requires ResumeLineAt(s, q, r, end)
    ensures var p := SkipWs(s, q);
            p + |r| <= q + |r| + 2 && FirstAt(s, end, p) == Some(q + |r| + 2)
            && BackWs(s, p, q + |r| + 2) == p + |r| && s[p..p + |r|] == r
  {
    if r != [] {
      CaptureFilled(s, q, r, end);
    } else {
      CaptureBlank(s, q, r, end);
    }
  }

  lemma CaptureFilled(s: string, q: nat, r: string, end: string)
    requires ResumeLineAt(s, q, r, end)
    requires r != []
    ensures var p := SkipWs(s, q);
            p + |r| <= q + |r| + 2 && FirstAt(s, end, p) == Some(q + |r| + 2)
            && BackWs(s, p, q + |r| + 2) == p + |r| && s[p..p + |r|] == r
  {
    var e := q + |r| + 2;
    var p := SkipWs(s, q);
    assert s[q + 1] == s[q + 1..q + 1 + |r|][0];
    SkipWsRun(s, q);
    assert p == q + 1;
    EndAfter(s, p, q + 1, |r|, end, e);
    assert s[e - 2] == s[q + 1..q + 1 + |r|][|r| - 1];
    assert BackWs(s, p, e) == e - 1;
  }

  lemma CaptureBlank(s: string, q: nat, r: string, end: string)
    requires ResumeLineAt(s, q, r, end)
    requires r == []
    ensures var p := SkipWs(s, q);
            p + |r| <= q + |r| + 2 && FirstAt(s, end, p) == Some(q + |r| + 2)
            && BackWs(s, p, q + |r| + 2) == p + |r| && s[p..p + |r|] == r
  {
    var e := q + |r| + 2;
    var p := SkipWs(s, q);
    assert s[e] == s[e..e + |end|][0];
    SkipWsRun(s, q);
    assert p == e;
    EndAfter(s, p, q + 1, |r|, end, e);
  }

  /** The header, intro, resume and end marker lie from `i0` on, separated by single newlines. */
  predicate WrapperAt(s: string, i0: nat, head: string, intro: string, r: string, end: string) {
    var p1 := i0 + |head| + 1;
    var rs := p1 + |intro| + 1;
    rs + |r| + 1 + |end| <= |s|
    && s[i0..i0 + |head|] == head && s[i0 + |head|] == '\n'
    && s[p1..p1 + |intro|] == intro && s[p1 + |intro|] == '\n'
    && s[rs..rs + |r|] == r && s[rs + |r|] == '\n'
    && s[rs + |r| + 1..rs + |r| + 1 + |end|] == end
  }

  /** The pattern tried at the wrapper's header captures exactly the trimmed resume. */
  lemma BlockAtWrapper(s: string, i0: nat, head: string, intro: string, r: string, end: string)
    requires WrapperAt(s, i0, head, intro, r, end)
    requires intro != [] && !IsWhitespace(intro[0])
    requires end != [] && NoNewline(end) && !IsWhitespace(end[0])
    requires !ContainsIgnoringCase(r, end) && Trimmed(r)
    ensures BlockAt(s, i0, head, intro, end) == Some(r)
  {
    var p1 := i0 + |head| + 1;
    var q := p1 + |intro|;
    var p := SkipWs(s, q);
    HeadAndIntro(s, i0, head, intro, r, end);
    assert FirstAt(s, end, p) == Some(q + |r| + 2) && BackWs(s, p, q + |r| + 2) == p + |r| && s[p..p + |r|] == r by {
      WrapperTail(s, i0, head, intro, r, end);
      NoMatchWithin(s, q + 1, r, end);
      CaptureResume(s, q, r, end);
    }
    BlockAtSpan(s, i0, p1, p, q + |r| + 2, head, intro, end, r);
  }

  /** The pattern at `i` in terms of the positions its steps reach: the group is the text up to the whitespace before the end marker. */
  lemma BlockAtSpan(s: string, i: nat, p1: nat, p: nat, e: nat, head: string, intro: string, end: string, r: string)
    requires i + |head| <= |s| && MatchAt(s, i, head) && SkipWs(s, i + |head|) == p1
    requires p1 + |intro| <= |s| && MatchAt(s, p1, intro) && SkipWs(s, p1 + |intro|) == p
    requires FirstAt(s, end, p) == Some(e) && BackWs(s, p, e) == p + |r| && s[p..p + |r|] == r
    ensures BlockAt(s, i, head, intro, end) == Some(r)
  {
    GroupAtSteps(s, i, p1, p, e, head, intro, end);
    BlockOfGroup(s, i, head, intro, end, Span(p, p + |r|), r);
  }

  /** The span the pattern at `i` reports, from the positions its steps reach. */
  lemma GroupAtSteps(s: string, i: nat, p1: nat, p: nat, e: nat, head: string, intro: string, end: string)
    requires i + |head| <= |s| && MatchAt(s, i, head) && SkipWs(s, i + |head|) == p1
    requires p1 + |intro| <= |s| && MatchAt(s, p1, intro) && SkipWs(s, p1 + |intro|) == p
    requires FirstAt(s, end, p) == Some(e)
    ensures GroupAt(s, i, head, intro, end) == Some(Span(p, BackWs(s, p, e)))
  {
  }

  /** The group is the text in the span the pattern reports. */
  lemma BlockOfGroup(s: string, i: nat, head: string, intro: string, end: string, g: Span, r: string)
    requires i <= |s| && GroupAt(s, i, head, intro, end) == Some(g)
    requires g.lo <= g.hi <= |s| && s[g.lo..g.hi] == r
    ensures BlockAt(s, i, head, intro, end) == Some(r)
  {
  }

  /** The header matches at `i0` and the intro right after the newline that follows it. */
  lemma HeadAndIntro(s: string, i0: nat, head: string, intro: string, r: string, end: string)
    requires WrapperAt(s, i0, head, intro, r, end)
    requires intro != [] && !IsWhitespace(intro[0])
    ensures i0 + |head| + 1 + |intro| <= |s|
    ensures MatchAt(s, i0, head) && SkipWs(s, i0 + |head|) == i0 + |head| + 1
    ensures MatchAt(s, i0 + |head| + 1, intro)
  {
    var p1 := i0 + |head| + 1;
    ExactAt(s, i0, head);
    assert s[p1] == s[p1..p1 + |intro|][0];
    assert SkipWs(s, i0 + |head|) == p1;
    ExactAt(s, p1, intro);
  }

  /** The layout after the intro, in the terms the capture is stated in. */
  lemma WrapperTail(s: string, i0: nat, head: string, intro: string, r: string, end: string)
    requires WrapperAt(s, i0, head, intro, r, end)
    ensures var q := i0 + |head| + 1 + |intro|;
            q + |r| + 2 + |end| <= |s| && s[q] == '\n' && s[q + 1..q + 1 + |r|] == r
            && s[q + 1 + |r|] == '\n' && s[q + |r| + 2..q + |r| + 2 + |end|] == end
  {
  }

  /**
   * A resume wrapped in the markers after a text without the header is matched at the
   * wrapper, and the group is exactly the resume, provided the resume has no whitespace
   * at its ends and does not contain the end marker.
   */
  lemma WrappedBlock(prefix: string, r: string, head: string, intro: string, end: string)
    requires head != [] && NoNewline(head)
    requires intro != [] && !IsWhitespace(intro[0])
    requires end != [] && NoNewline(end) && !IsWhitespace(end[0])
    requires !ContainsIgnoringCase(prefix, head) && !ContainsIgnoringCase(r, end) && Trimmed(r)
    ensures var s := prefix + Wrapped(head, intro, r, end);
            FirstBlock(s, 0, head, intro, end) == Some(|prefix| + 2) && BlockAt(s, |prefix| + 2, head, intro, end) == Some(r)
  {
    var s := prefix + Wrapped(head, intro, r, end);
    var i0 := |prefix| + 2;
    WrapperFront(prefix, head, intro, r, end);
    WrapperBack(prefix, head, intro, r, end);
    NoHeadBefore(s, prefix, head);
    BlockAtWrapper(s, i0, head, intro, r, end);
    FirstBlockAt(s, 0, i0, head, intro, end);
  }

  /** Where the text before the wrapper, the separator and the header lie in it. */
  lemma WrapperFront(prefix: string, head: string, intro: string, r: string, end: string)
    ensures var s := prefix + Wrapped(head, intro, r, end);
            s[..|prefix|] == prefix && s[|prefix|] == '\n' && s[|prefix| + 1] == '\n'
  {
  }

  /** Where the header, the intro, the resume and the end marker lie in the wrapper. */
  lemma WrapperBack(prefix: string, head: string, intro: string, r: string, end: string)
    ensures WrapperAt(prefix + Wrapped(head, intro, r, end), |prefix| + 2, head, intro, r, end)
  {
    var s := prefix + Wrapped(head, intro, r, end);
    var i0 := |prefix| + 2;
    var p1 := i0 + |head| + 1;
    var rs := p1 + |intro| + 1;
    assert s[i0..i0 + |head|] == head;
    assert s[p1..p1 + |intro|] == intro;
    assert s[rs..rs + |r|] == r;
  }

  /**
   * The round trip of the chat page's marking: a trimmed resume without the end marker,
   * appended in its block to a text without the header, is exactly the resume the
   * agent recovers, whatever the older format's extractor would say.
   */
  lemma MarkedResumeRecovered(prefix: string, resume: string, legacy: string -> Option<string>)
    requires !ContainsIgnoringCase(prefix, ResumeHeader) && !ContainsIgnoringCase(resume, ResumeEnd) && Trimmed(resume)
    ensures MarkedResume(prefix + MarkedBlock(resume)) == Some(resume)
    ensures ResumeText(prefix + MarkedBlock(resume), legacy) == resume
  {
    MarkerFacts();
    WrappedBlock(prefix, resume, ResumeHeader, ResumeIntro, ResumeEnd);
    TrimOfTrimmed(resume);
  }

  // ---------------------------------------------------------------------------
  // The job description.

  /** The terms a job description must mention, matched ignoring case. */
  const Keywords: seq<string> := ["experience", "skill", "require", "responsibilit", "qualificat", "developer", "engineer", "position"]

  predicate HasKeyword(x: string) {
    exists k :: 0 <= k < |Keywords| && ContainsIgnoringCase(x, Keywords[k])
  }

  /** The check a candidate job description must pass. */
  predicate Acceptable(x: string) {
    |x| > 100 && HasKeyword(x)
  }

  /**
   * What one pattern offers: its trimmed first group, when the pattern matches and the
   * group is not empty. A pattern gives its group, or `None` when it does not match.
   */
  function Candidate(full: string, pattern: string -> Option<string>): (r: Option<string>)
    ensures r.Some? <==> pattern(full).Some? && pattern(full).value != ""
    ensures r.Some? ==> r.value == Trim(pattern(full).value)
  {
    if pattern(full).Some? && pattern(full).value != "" then Some(Trim(pattern(full).value)) else None
  }

  predicate AcceptedBy(full: string, pattern: string -> Option<string>) {
    Candidate(full, pattern).Some? && Acceptable(Candidate(full, pattern).value)
  }

  /** The first acceptable candidate in pattern order, or `""` when there is none. */
  function FromPatterns(full: string, patterns: seq<string -> Option<string>>): (r: string)
    decreases |patterns|
  {
    if patterns == [] then ""
    else if AcceptedBy(full, patterns[0]) then Candidate(full, patterns[0]).value
    else FromPatterns(full, patterns[1..])
  }

  /**
   * The patterns are tried in order: the result is the candidate of the first pattern
   * that gives an acceptable one, and empty exactly when none does.
   */
  lemma {:induction false} FromPatternsFirst(full: string, patterns: seq<string -> Option<string>>)
    ensures var r := FromPatterns(full, patterns);
            (r == "" <==> forall i :: 0 <= i < |patterns| ==> !AcceptedBy(full, patterns[i]))
            && (r != "" ==> Acceptable(r)
                            && exists i :: 0 <= i < |patterns| && AcceptedBy(full, patterns[i]) && r == Candidate(full, patterns[i]).value
                                           && forall j :: 0 <= j < i ==> !AcceptedBy(full, patterns[j]))
    decreases |patterns|
  {
    if patterns != [] && !AcceptedBy(full, patterns[0]) {
      var rest := patterns[1..];
      FromPatternsFirst(full, rest);
      var r := FromPatterns(full, rest);
      assert forall i :: 1 <= i < |patterns| ==> patterns[i] == rest[i - 1];
      if r != "" {
        var i :| 0 <= i < |rest| && AcceptedBy(full, rest[i]) && r == Candidate(full, rest[i]).value
                 && forall j :: 0 <= j < i ==> !AcceptedBy(full, rest[j]);
        assert patterns[i + 1] == rest[i];
        forall j | 0 <= j < i + 1 ensures !AcceptedBy(full, patterns[j]) {
          if j > 0 { assert patterns[j] == rest[j - 1]; }
        }
      }
    }
  }

  /** `jobDescription`: the first accepted candidate, else a long prompt with a keyword, else empty. */
  function JobDescription(full: string, prompt: string, patterns: seq<string -> Option<string>>): string {
    var found := FromPatterns(full, patterns);
    if found == "" && |prompt| > 150 && HasKeyword(prompt) then prompt else found
  }

  /**
   * A job description, when there is one, is an accepted candidate or the prompt; the
   * prompt is used exactly when no candidate is accepted and it is long and has a keyword.
   */
  lemma JobDescriptionSource(full: string, prompt: string, patterns: seq<string -> Option<string>>)
    ensures var jd := JobDescription(full, prompt, patterns);
            var none := forall i :: 0 <= i < |patterns| ==> !AcceptedBy(full, patterns[i]);
            (jd != "" ==> |jd| > 100 && HasKeyword(jd))
            && (!none ==> jd == FromPatterns(full, patterns) && jd != "")
            && (none ==> (jd != "" <==> |prompt| > 150 && HasKeyword(prompt)) && (jd != "" ==> jd == prompt))
  {
    FromPatternsFirst(full, patterns);
  }

  /** The pattern loop with its `break`, then the prompt fallback. */
  method ExtractJobDescription(full: string, prompt: string, patterns: seq<string -> Option<string>>) returns (jd: string)
    ensures jd == JobDescription(full, prompt, patterns)
  {
    jd := "";
    var i := 0;
    while i < |patterns|
      invariant 0 <= i <= |patterns|
      invariant jd == ""
      invariant FromPatterns(full, patterns) == FromPatterns(full, patterns[i..])
    {
      var m := patterns[i](full);
      if m.Some? && m.value != "" {
        var extracted := Trim(m.value);
        if |extracted| > 100 && HasKeyword(extracted) {
          jd := extracted;
          break;
        }
      }
      assert patterns[i..][1..] == patterns[i + 1..];
      i := i + 1;
    }
    if jd == "" && |prompt| > 150 && HasKeyword(prompt) {
      jd := prompt;
    }
  }

  // ---------------------------------------------------------------------------
  // The decision.

  const ScoreMarker := "Match Score:"
  const DoneMarker := "Resume Analysis Complete"

  /** `analysisAlreadyDone`. */
  predicate AnalysisDone(full: string) {
    Contains(full, ScoreMarker) || Contains(full, DoneMarker)
  }

  const InvitePhrase := "would you like"
  const InterviewWord := "interview"

  /**
   * `explicitQuestionRequest`: the prompt asks for questions, or an affirmative prompt
   * follows a context that invited interview practice. The two regular expressions are
   * parameters; the affirmation test sees the lower-cased prompt.
   */
  predicate QuestionRequest(full: string, prompt: string, asks: string -> bool, affirms: string -> bool) {
    asks(prompt)
    || (affirms(ToLowerAscii(prompt)) && Contains(ToLowerAscii(full), InvitePhrase) && Contains(ToLowerAscii(full), InterviewWord))
  }

  datatype Branch = Analyse | AskQuestions | Chat

  /** The priority cascade: analysis first, then questions (which need the analysis done), then chat. */
  function Decide(hasJd: bool, hasResume: bool, done: bool, explicit: bool): (b: Branch)
    ensures b == Analyse <==> hasJd && hasResume && !done
    ensures b == AskQuestions <==> explicit && done && hasJd
    ensures b == Chat <==> !(hasJd && hasResume && !done) && !(explicit && done && hasJd)
  {
    var wants := explicit && done;
    if hasJd && hasResume && !done then Analyse
    else if wants && hasJd then AskQuestions
    else Chat
  }

  // ---------------------------------------------------------------------------
  // The replies.

  /**
   * A value interpolated into a template literal: strings as they are, integers in
   * decimal, `null`, booleans, `undefined` for a missing property, `[object Object]` for
   * an object; how an array is written is a parameter.
   */
  function Show(v: Option<Json>, showArray: Json -> string): (r: string)
    ensures v.Some? && v.value.JStr? ==> r == v.value.s
    ensures v.Some? && v.value.JNum? ==> r == IntToString(v.value.n)
  {
    match v
    case None => "undefined"
    case Some(JNull) => "null"
    case Some(JBool(b)) => if b then "true" else "false"
    case Some(JNum(n)) => IntToString(n)
    case Some(JStr(x)) => x
    case Some(JArr(_)) => showArray(v.value)
    case Some(JObj(_)) => "[object Object]"
  }

  /** The `TypeError` messages V8 gives when `.length` is read from `undefined` or `null`. */
  const UndefinedLength := "Cannot read properties of undefined (reading 'length')"
  const NullLength := "Cannot read properties of null (reading 'length')"

  /** The `TypeError` message V8 gives when `analysisResult.<name>.map` is not a function. */
  function NotAFunction(name: string): string {
    "analysisResult." + name + ".map is not a function"
  }

  function Bullets(items: seq<Json>, showArray: Json -> string): (r: seq<string>)
    ensures |r| == |items| && forall i :: 0 <= i < |items| ==> r[i] == "- " + Show(Some(items[i]), showArray)
  {
    if items == [] then [] else ["- " + Show(Some(items[0]), showArray)] + Bullets(items[1..], showArray)
  }

  /**
   * `len > 0` for the `length` a value reports: `undefined` and `null` are not positive, a
   * boolean is 1 or 0, an object converts to `NaN`, and an array converts through its one
   * element's text (empty for none, `NaN` for several or for a boolean). Whether a text is
   * a positive number is `positiveText`, as its conversion to a number is not modelled.
   */
  function Positive(len: Option<Json>, positiveText: string -> bool): (r: bool)
    ensures len.None? || (len.Some? && (len.value.JNull? || len.value.JObj?)) ==> !r
    ensures len.Some? && len.value.JNum? ==> (r <==> len.value.n > 0)
    ensures len.Some? && len.value.JBool? ==> r == len.value.b
  {
    len.Some? && PositiveValue(len.value, positiveText)
  }

  function PositiveValue(j: Json, positiveText: string -> bool): bool {
    match j
    case JNull => false
    case JBool(b) => b
    case JNum(n) => n > 0
    case JStr(t) => positiveText(t)
    case JObj(_) => false
    case JArr(es) => |es| == 1 && !es[0].JBool? && PositiveValue(es[0], positiveText)
  }

  /**
   * A skills section, `v.length > 0 ? v.map(...).join('\n') : placeholder`: one bullet per
   * entry of an array, the placeholder for an empty one. A missing or `null` value has no
   * length; a non-empty string, or an object whose `length` field is positive, has no `map`;
   * any other value has no positive length and gives the placeholder. The thrown messages
   * are V8's, for the field `analysisResult.<name>`.
   */
  function SkillLines(v: Option<Json>, name: string, placeholder: string, showArray: Json -> string, positiveText: string -> bool)
    : (r: Outcome<string>)
    ensures v.Some? && v.value.JArr? ==>
              r == Success(if |v.value.elems| > 0 then Join(Bullets(v.value.elems, showArray), "\n") else placeholder)
    ensures r.Failure? <==> v.None? || v.value.JNull? || (v.value.JStr? && v.value.s != "")
                            || (v.value.JObj? && Positive(Field(v.value, "length"), positiveText))
    ensures r.Success? && !v.value.JArr? ==> r.value == placeholder
    ensures v.None? ==> r == Failure(UndefinedLength)
    ensures v.Some? && v.value.JNull? ==> r == Failure(NullLength)
    ensures r.Failure? && v.Some? && !v.value.JNull? ==> r.msg == NotAFunction(name)
  {
    match v
    case None => Failure(UndefinedLength)
    case Some(JNull) => Failure(NullLength)
    case Some(JArr(es)) => Success(if |es| > 0 then Join(Bullets(es, showArray), "\n") else placeholder)
    case Some(JStr(x)) => if x != "" then Failure(NotAFunction(name)) else Success(placeholder)
    case Some(JObj(_)) => if Positive(Field(v.value, "length"), positiveText) then Failure(NotAFunction(name)) else Success(placeholder)
    case Some(_) => Success(placeholder)
  }

  /** An object with a positive `length` reaches `.map` and throws; with none it gives the placeholder. */
  lemma ObjectSkills(fields: map<string, Json>, name: string, placeholder: string, showArray: Json -> string, positiveText: string -> bool)
    ensures "length" in fields && fields["length"].JNum? && fields["length"].n > 0
            ==> SkillLines(Some(JObj(fields)), name, placeholder, showArray, positiveText) == Failure(NotAFunction(name))
    ensures "length" !in fields ==> SkillLines(Some(JObj(fields)), name, placeholder, showArray, positiveText) == Success(placeholder)
  {
  }

  const NoMatching := "_No matching skills identified._"
  const NoGaps := "_Great news! No significant skill gaps detected._"

  const InviteStart := "Would you like"

  /*
   * The emoji that open the reply's headings are spelled as the flow's source text holds them:
   * each emoji's UTF-8 bytes read as Windows-1252 characters, with the bytes that code page
   * leaves undefined dropped. These characters, not the emoji, are what the agent sends.
   */
  const Target := "\U{F0}\U{178}\U{17D}\U{AF}"     // U+1F3AF
  const Bulb := "\U{F0}\U{178}\U{2019}\U{A1}"      // U+1F4A1
  const Chart := "\U{F0}\U{178}\U{201C}\U{160}"    // U+1F4CA
  const CheckMark := "\U{E2}\U{153}\U{2026}"           // U+2705
  const CrossMark := "\U{E2}\U{152}"                   // U+274C
  const Muscle := "\U{F0}\U{178}\U{2019}\U{AA}"    // U+1F4AA

  const StrongLead := Target + " **Strong Match!** Your resume shows excellent alignment with this role!\n\n"
  const StrongMiddle := " me to generate some "
  const StrongEnd := " practice questions to help you prepare?"
  const StrongClosing := StrongLead + InviteStart + StrongMiddle + InterviewWord + StrongEnd
  const ImproveLead := Bulb + " **Improvement Areas:** Consider gaining experience or certifications in the missing skills to strengthen your candidacy.\n\n"
  const ImproveClosing := ImproveLead + InviteStart + " me to analyze another resume or provide guidance on how to address these gaps?"

  /** The closing paragraph: the strong-match invitation to practise from a score of 70 on. */
  function Closing(score: int): (r: string)
    ensures r == StrongClosing <==> score >= 70
    ensures r == ImproveClosing <==> score < 70
  {
    assert StrongClosing[2] == Target[2] != Bulb[2] == ImproveClosing[2];
    if score >= 70 then StrongClosing else ImproveClosing
  }

  const TitleStart := "\n### " + Chart + " "
  const TitleEnd := "!\n\nHere's how your resume stacks up against the job description:\n\n"
  const MatchingHead := "\n\n---\n\n#### " + CheckMark + " **Matching Skills**\n"
  const GapHead := "\n\n---\n\n#### " + CrossMark + " **Skills Gap**\n"
  const Rule := "\n\n---\n\n"
  const ReplyTail := "\n      "

  /** The heading of the analysis reply. */
  function AnalysisTitle(): string {
    TitleStart + DoneMarker + TitleEnd
  }

  /** The score after its label, as a bold percentage. */
  function ScoreValue(score: int): string {
    "** **" + IntToString(score) + "%**\n\n"
  }

  /** The score line of the analysis reply. */
  function ScoreLine(score: int): string {
    "**" + ScoreMarker + ScoreValue(score)
  }

  /** The rationale, the two skills sections and the closing. */
  function AnalysisBody(score: int, rationale: string, matching: string, missing: string): string {
    rationale + MatchingHead + matching + GapHead + missing + Rule + Closing(score) + ReplyTail
  }

  /** The analysis reply, from its score, rationale and two skills sections. */
  function AnalysisText(score: int, rationale: string, matching: string, missing: string): string {
    AnalysisTitle() + ScoreLine(score) + AnalysisBody(score, rationale, matching, missing)
  }

  /** `analysisResult.matchScore`, which the skill analysis guarantees to be a number. */
  function MatchScore(analysis: Json): int
    requires SkillMatching.Accepts(analysis)
  {
    Field(analysis, "matchScore").value.n
  }

  /** The analysis branch's reply; it throws when a skills field is a non-empty string, as `.map` does. */
  function AnalysisReply(analysis: Json, showArray: Json -> string, positiveText: string -> bool): (r: Outcome<string>)
    requires SkillMatching.Accepts(analysis)
    ensures r.Success? <==> SkillLines(Field(analysis, "matchingSkills"), "matchingSkills", NoMatching, showArray, positiveText).Success?
                            && SkillLines(Field(analysis, "missingSkills"), "missingSkills", NoGaps, showArray, positiveText).Success?
    ensures r.Success? ==>
              r.value == AnalysisText(MatchScore(analysis), Show(Field(analysis, "scoreRationale"), showArray),
                                      SkillLines(Field(analysis, "matchingSkills"), "matchingSkills", NoMatching, showArray, positiveText).value,
                                      SkillLines(Field(analysis, "missingSkills"), "missingSkills", NoGaps, showArray, positiveText).value)
  {
    var matching := SkillLines(Field(analysis, "matchingSkills"), "matchingSkills", NoMatching, showArray, positiveText);
    var missing := SkillLines(Field(analysis, "missingSkills"), "missingSkills", NoGaps, showArray, positiveText);
    if matching.Failure? then matching
    else if missing.Failure? then missing
    else Success(AnalysisText(MatchScore(analysis), Show(Field(analysis, "scoreRationale"), showArray), matching.value, missing.value))
  }

  /** The analysis reply carries both markers the agent checks for, whatever is interpolated into it. */
  lemma AnalysisTextMarked(score: int, rationale: string, matching: string, missing: string)
    ensures Contains(AnalysisText(score, rationale, matching, missing), DoneMarker)
    ensures Contains(AnalysisText(score, rationale, matching, missing), ScoreMarker)
    ensures AnalysisDone(AnalysisText(score, rationale, matching, missing))
  {
    TitleMarked();
    ScoreLineMarked(score);
    MarkersKept(AnalysisTitle(), ScoreLine(score), AnalysisBody(score, rationale, matching, missing), DoneMarker, ScoreMarker);
  }

  /** What the first two parts contain, the whole contains. */
  lemma MarkersKept(a: string, b: string, c: string, m1: string, m2: string)
    requires Contains(a, m1) && Contains(b, m2)
    ensures Contains(a + b + c, m1) && Contains(a + b + c, m2)
  {
    ContainsBefore(a, b, m1);
    ContainsBefore(a + b, c, m1);
    ContainsAfter(a, b, m2);
    ContainsBefore(a + b, c, m2);
  }

  lemma TitleMarked()
    ensures Contains(AnalysisTitle(), DoneMarker)
  {
    ContainsSelf(DoneMarker);
    ContainsInContext(TitleStart, DoneMarker, TitleEnd, DoneMarker);
  }

  lemma ScoreLineMarked(score: int)
    ensures Contains(ScoreLine(score), ScoreMarker)
  {
    ContainsSelf(ScoreMarker);
    ContainsInContext("**", ScoreMarker, ScoreValue(score), ScoreMarker);
  }

  /** `**<n>.** <question>` for the questions in order, numbered from 1. */
  function Numbered(questions: seq<Json>, showArray: Json -> string): (r: seq<string>)
    ensures |r| == |questions|
    ensures forall i :: 0 <= i < |questions| ==> r[i] == "**" + IntToString(i + 1) + ".** " + Show(Some(questions[i]), showArray)
    decreases |questions|
  {
    if questions == [] then []
    else
      var n := |questions|;
      Numbered(questions[..n - 1], showArray) + ["**" + IntToString(n) + ".** " + Show(Some(questions[n - 1]), showArray)]
  }

  const QuestionsHead := "\n### " + Target + " Interview Practice Questions\n\nHere are 5 tailored interview questions based on the job description:\n\n"
  const QuestionsTip := "\n\n---\n\n" + Muscle + " **Tip:** For each question, prepare STAR-format answers (Situation, Task, Action, Result) using specific examples from your experience.\n\nWould you like more interview questions or help with anything else?\n      "

  /** The questions branch's reply around the numbered questions. */
  function QuestionsText(questions: seq<Json>, showArray: Json -> string): string {
    QuestionsHead + Join(Numbered(questions, showArray), "\n\n") + QuestionsTip
  }

  /** `interviewResult.questions`: the question flow's output always holds an array of five. */
  function Questions(result: Json): (r: seq<Json>)
    requires InterviewFlow.FiveQuestions(result)
    ensures |r| == 5
  {
    Field(result, "questions").value.elems
  }

  /** The chat branch: the trimmed `response` of an OK reply; otherwise the error it throws. */
  function ChatReply(reply: HttpReply): (r: Outcome<string>)
    ensures reply.HttpOk? <==> r.Success?
    ensures reply.HttpOk? ==> r.value == Trim(reply.response)
    ensures reply.HttpError? ==> r == Failure("Ollama API error: " + reply.statusText)
    ensures reply.NetworkError? ==> r == Failure(reply.error)
  {
    match reply
    case NetworkError(e) => Failure(e)
    case HttpError(_, statusText) => Failure("Ollama API error: " + statusText)
    case HttpOk(text) => Success(Trim(text))
  }

  const JdNote := "\n[CONTEXT: Job description has been provided in the conversation]"
  const ResumeNote := "\n[CONTEXT: Resume has been uploaded and extracted]"
  const DoneNote := "\n[CONTEXT: Resume analysis has been completed and shown to user]"

  /** `contextSummary`: one note per fact known, in a fixed order. */
  function ContextSummary(hasJd: bool, hasResume: bool, done: bool): string {
    (if hasJd then JdNote else "") + (if hasResume then ResumeNote else "") + (if done then DoneNote else "")
  }

  /** What the chat prompt is built from; its fixed instructions are not modelled. */
  datatype ChatPrompt = ChatPrompt(fullContext: string, contextSummary: string, wantsQuestions: bool)

  /**
   * The model services and the regular expressions the agent relies on: the older
   * resume format and the job-description patterns give their first group, the two
   * question tests are the prompt's regular expressions, and each service call is
   * given by the reply it gets.
   */
  datatype AgentServices = AgentServices(
    legacyResume: string -> Option<string>,
    jdPatterns: seq<string -> Option<string>>,
    asksForQuestions: string -> bool,
    affirms: string -> bool,
    analysisReply: (string, string) -> HttpReply,
    questionsReply: string -> HttpReply,
    parseJson: string -> Outcome<Json>,
    chatReply: ChatPrompt -> HttpReply,
    showArray: Json -> string,
    positiveText: string -> bool)

  /** What a turn finds in the context: the job description, the resume, and the two flags. */
  datatype Turn = Turn(full: string, jd: string, resume: string, done: bool, explicit: bool)

  function Observe(history: seq<Message>, prompt: string, svc: AgentServices): (t: Turn)
    ensures t.full == FullContext(history, prompt)
  {
    var full := FullContext(history, prompt);
    Turn(full, JobDescription(full, prompt, svc.jdPatterns), ResumeText(full, svc.legacyResume),
         AnalysisDone(full), QuestionRequest(full, prompt, svc.asksForQuestions, svc.affirms))
  }

  /** The branch the flow takes for a history and a prompt. */
  function Route(history: seq<Message>, prompt: string, svc: AgentServices): Branch {
    var t := Observe(history, prompt, svc);
    Decide(t.jd != "", t.resume != "", t.done, t.explicit)
  }

  /** The analysis branch: the skill analysis of the job description and the resume, rendered. */
  function AnalysisOutcome(jd: string, resume: string, svc: AgentServices): Outcome<string> {
    var analysis := SkillMatching.AnalyzeSkills(svc.analysisReply(jd, resume), svc.parseJson);
    SkillMatching.AnalyzeSkillsAccepted(svc.analysisReply(jd, resume), svc.parseJson);
    AnalysisReply(analysis, svc.showArray, svc.positiveText)
  }

  /** The questions branch: the five generated questions, rendered. */
  function QuestionsOutcome(jd: string, svc: AgentServices): Outcome<string> {
    var result := InterviewFlow.GenerateQuestions(svc.questionsReply(jd), svc.parseJson);
    InterviewFlow.AlwaysFiveQuestions(svc.questionsReply(jd), svc.parseJson);
    Success(QuestionsText(Questions(result), svc.showArray))
  }

  /** The reply of the branch the turn's findings select. */
  function Respond(t: Turn, svc: AgentServices): Outcome<string> {
    match Decide(t.jd != "", t.resume != "", t.done, t.explicit)
    case Analyse => AnalysisOutcome(t.jd, t.resume, svc)
    case AskQuestions => QuestionsOutcome(t.jd, svc)
    case Chat => ChatReply(svc.chatReply(ChatPrompt(t.full, ContextSummary(t.jd != "", t.resume != "", t.done), t.explicit && t.done)))
  }

  /** `careerAgentFlow`: the reply for a history and a prompt, or the error it throws. */
  function Career(history: seq<Message>, prompt: string, svc: AgentServices): Outcome<string> {
    Respond(Observe(history, prompt, svc), svc)
  }

  /** The `contextSummary +=` steps. */
  method BuildSummary(hasJd: bool, hasResume: bool, done: bool) returns (summary: string)
    ensures summary == ContextSummary(hasJd, hasResume, done)
  {
    summary := "";
    if hasJd {
      summary := summary + JdNote;
    }
    assert summary == (if hasJd then JdNote else "");
    if hasResume {
      summary := summary + ResumeNote;
    }
    assert summary == (if hasJd then JdNote else "") + (if hasResume then ResumeNote else "");
    if done {
      summary := summary + DoneNote;
    }
  }

  /** The flow with its `for` loop, its `break`ing pattern loop and its `contextSummary +=` steps. */
  method CareerAgent(history: seq<Message>, prompt: string, svc: AgentServices) returns (r: Outcome<string>)
    ensures r == Career(history, prompt, svc)
  {
    var ctx := BuildContext(history);
    var full := ctx + "User: " + prompt;
    var jd := ExtractJobDescription(full, prompt, svc.jdPatterns);
    var resume := ResumeText(full, svc.legacyResume);
    var done := Contains(full, ScoreMarker) || Contains(full, DoneMarker);
    var explicit := QuestionRequest(full, prompt, svc.asksForQuestions, svc.affirms);
    var t := Turn(full, jd, resume, done, explicit);
    assert t == Observe(history, prompt, svc);
    var wants := explicit && done;
    if jd != "" && resume != "" && !done {
      r := AnalysisOutcome(jd, resume, svc);
      return;
    }
    if wants && jd != "" {
      r := QuestionsOutcome(jd, svc);
      return;
    }
    var summary := BuildSummary(jd != "", resume != "", done);
    r := ChatReply(svc.chatReply(ChatPrompt(full, summary, wants)));
  }

  // ---------------------------------------------------------------------------
  // What the replies do to later turns.

  /** Text of a history message is text of the context the next turn sees. */
  lemma InHistory(history: seq<Message>, k: nat, prompt: string, sub: string)
    requires k < |history| && Contains(FirstText(history[k]), sub)
    ensures Contains(FullContext(history, prompt), sub)
  {
    var m := history[k];
    ContextHasEntry(history, k);
    ContainsInContext(RoleLabel(m) + ": ", FirstText(m), "\n\n", sub);
    ContainsTrans(Context(history), Entry(m), sub);
    ContainsInContext([], Context(history), "User: " + prompt, sub);
    assert [] + Context(history) + ("User: " + prompt) == FullContext(history, prompt);
  }

  /** Once an analysis reply is in the history, the next turn sees the analysis as done and does not analyse again. */
  lemma AnalysisOnce(history: seq<Message>, k: nat, prompt: string, svc: AgentServices,
                     score: int, rationale: string, matching: string, missing: string)
    requires k < |history| && FirstText(history[k]) == AnalysisText(score, rationale, matching, missing)
    ensures AnalysisDone(FullContext(history, prompt))
    ensures Route(history, prompt, svc) != Analyse
  {
    AnalysisTextMarked(score, rationale, matching, missing);
    InHistory(history, k, prompt, DoneMarker);
  }

  /** Text of the closing is text of the analysis reply. */
  lemma InClosing(score: int, rationale: string, matching: string, missing: string, sub: string)
    requires Contains(Closing(score), sub)
    ensures Contains(AnalysisText(score, rationale, matching, missing), sub)
  {
    var pre := rationale + MatchingHead + matching + GapHead + missing + Rule;
    ContainsInContext(pre, Closing(score), ReplyTail, sub);
    var head := AnalysisTitle() + ScoreLine(score);
    ContainsInContext(head, AnalysisBody(score, rationale, matching, missing), [], sub);
    assert head + AnalysisBody(score, rationale, matching, missing) + [] == AnalysisText(score, rationale, matching, missing);
  }

  /** The invitation lower-cases to the phrase the agent looks for; the interview word is lower case already. */
  lemma LowerInvite()
    ensures |InviteStart| == |InvitePhrase| && forall k :: 0 <= k < |InviteStart| ==> LowerAscii(InviteStart[k]) == InvitePhrase[k]
    ensures forall k :: 0 <= k < |InterviewWord| ==> LowerAscii(InterviewWord[k]) == InterviewWord[k]
  {
  }

  /** The strong-match closing invites interview practice. */
  lemma StrongClosingInvites()
    ensures Contains(StrongClosing, InviteStart) && Contains(StrongClosing, InterviewWord)
  {
    ContainsSelf(InviteStart);
    ContainsInContext(StrongLead, InviteStart, StrongMiddle + InterviewWord + StrongEnd, InviteStart);
    assert StrongLead + InviteStart + (StrongMiddle + InterviewWord + StrongEnd) == StrongClosing;
    ContainsSelf(InterviewWord);
    ContainsInContext(StrongLead + InviteStart + StrongMiddle, InterviewWord, StrongEnd, InterviewWord);
  }

  /**
   * After a strong-match analysis, an affirmative prompt is an explicit request for
   * questions: with a job description still found, the next turn generates them.
   */
  lemma StrongMatchInvitesQuestions(history: seq<Message>, k: nat, prompt: string, svc: AgentServices,
                                    score: int, rationale: string, matching: string, missing: string)
    requires k < |history| && FirstText(history[k]) == AnalysisText(score, rationale, matching, missing) && score >= 70
    requires svc.affirms(ToLowerAscii(prompt))
    requires JobDescription(FullContext(history, prompt), prompt, svc.jdPatterns) != ""
    ensures Route(history, prompt, svc) == AskQuestions
  {
    var full := FullContext(history, prompt);
    StrongClosingInvites();
    InClosing(score, rationale, matching, missing, InviteStart);
    InClosing(score, rationale, matching, missing, InterviewWord);
    InHistory(history, k, prompt, InviteStart);
    InHistory(history, k, prompt, InterviewWord);
    LowerInvite();
    LowerContains(full, InviteStart, InvitePhrase);
    LowerContains(full, InterviewWord, InterviewWord);
    AnalysisOnce(history, k, prompt, svc, score, rationale, matching, missing);
  }

  /** The questions branch always lists five questions, numbered from 1 in order. */
  lemma QuestionsBranch(history: seq<Message>, prompt: string, svc: AgentServices)
    requires Route(history, prompt, svc) == AskQuestions
    ensures var result := InterviewFlow.GenerateQuestions(svc.questionsReply(Observe(history, prompt, svc).jd), svc.parseJson);
            InterviewFlow.FiveQuestions(result)
            && |Questions(result)| == 5
            && Career(history, prompt, svc) == Success(QuestionsText(Questions(result), svc.showArray))
  {
    InterviewFlow.AlwaysFiveQuestions(svc.questionsReply(Observe(history, prompt, svc).jd), svc.parseJson);
  }

  /**
   * The analysis branch replies with the analysis text (which marks the analysis as
   * done) unless a skills field is a non-empty string; its closing is the strong-match
   * invitation when the score is at least 70.
   */
  lemma AnalysisBranch(history: seq<Message>, prompt: string, svc: AgentServices)
    requires Route(history, prompt, svc) == Analyse
    ensures var t := Observe(history, prompt, svc);
            var analysis := SkillMatching.AnalyzeSkills(svc.analysisReply(t.jd, t.resume), svc.parseJson);
            SkillMatching.Accepts(analysis)
            && Career(history, prompt, svc) == AnalysisReply(analysis, svc.showArray, svc.positiveText)
            && (Career(history, prompt, svc).Success? ==>
                  AnalysisDone(Career(history, prompt, svc).value)
                  && (MatchScore(analysis) >= 70 ==> Contains(Career(history, prompt, svc).value, StrongClosing)))
  {
    AnalysisResponds(Observe(history, prompt, svc), svc);
  }

  /** The analysis branch's reply for the turn's findings. */
  lemma AnalysisResponds(t: Turn, svc: AgentServices)
    requires Decide(t.jd != "", t.resume != "", t.done, t.explicit) == Analyse
    ensures var analysis := SkillMatching.AnalyzeSkills(svc.analysisReply(t.jd, t.resume), svc.parseJson);
            SkillMatching.Accepts(analysis)
            && Respond(t, svc) == AnalysisReply(analysis, svc.showArray, svc.positiveText)
            && (Respond(t, svc).Success? ==>
                  AnalysisDone(Respond(t, svc).value)
                  && (MatchScore(analysis) >= 70 ==> Contains(Respond(t, svc).value, StrongClosing)))
  {
    SkillMatching.AnalyzeSkillsAccepted(svc.analysisReply(t.jd, t.resume), svc.parseJson);
    var analysis := SkillMatching.AnalyzeSkills(svc.analysisReply(t.jd, t.resume), svc.parseJson);
    var r := AnalysisReply(analysis, svc.showArray, svc.positiveText);
    if r.Success? {
      var score := MatchScore(analysis);
      var rationale := Show(Field(analysis, "scoreRationale"), svc.showArray);
      var matching := SkillLines(Field(analysis, "matchingSkills"), "matchingSkills", NoMatching, svc.showArray, svc.positiveText).value;
      var missing := SkillLines(Field(analysis, "missingSkills"), "missingSkills", NoGaps, svc.showArray, svc.positiveText).value;
      AnalysisTextMarked(score, rationale, matching, missing);
      if score >= 70 {
        ContainsSelf(StrongClosing);
        InClosing(score, rationale, matching, missing, StrongClosing);
      }
    }
  }

}
