// The two helpers of the batch screening route: assembling the text of a parsed
// PDF from its pages and text runs, and turning the model service's reply into an
// analysis record (the span from the first `{` to the last `}` of the reply).
module BatchHelpers {
  import opened Text
  import opened Outcomes

  /** A text item of a page: the `T` strings of its runs, `""` where a run has none. */
  type TextItem = seq<string>

  /** A page of the parsed PDF: its text items in order. */
  type PdfPage = seq<TextItem>

  /** The contribution of one run: its decoded text (its raw text when decoding fails) and a space, or nothing when it has no text. */
  function RunText(t: string, decode: string -> Option<string>): (r: string)
    ensures t == "" ==> r == ""
    ensures t != "" ==> r == decode(t).GetOr(t) + " "
  {
    if t == "" then "" else decode(t).GetOr(t) + " "
  }

  function RunsText(runs: seq<string>, decode: string -> Option<string>): string
    decreases |runs|
  {
    if runs == [] then "" else RunsText(runs[..|runs| - 1], decode) + RunText(runs[|runs| - 1], decode)
  }

  function ItemsText(items: seq<TextItem>, decode: string -> Option<string>): string
    decreases |items|
  {
    if items == [] then "" else ItemsText(items[..|items| - 1], decode) + RunsText(items[|items| - 1], decode)
  }

  /** The untrimmed text: every page's runs followed by a newline. */
  function PagesText(pages: seq<PdfPage>, decode: string -> Option<string>): string
    decreases |pages|
  {
    if pages == [] then "" else PagesText(pages[..|pages| - 1], decode) + ItemsText(pages[|pages| - 1], decode) + "\n"
  }

  /** The text `extractTextFromPDF` resolves with. */
  function PdfText(pages: seq<PdfPage>, decode: string -> Option<string>): string {
    Trim(PagesText(pages, decode))
  }

  /** The nested loops of `extractTextFromPDF`, appending to the text run by run. */
  method ExtractText(pages: seq<PdfPage>, decode: string -> Option<string>) returns (text: string)
    ensures text == PdfText(pages, decode)
  {
    var raw := "";
    var p := 0;
    while p < |pages|
      invariant 0 <= p <= |pages|
      invariant raw == PagesText(pages[..p], decode)
    {
      raw := AppendItems(raw, pages[p], decode);
      raw := raw + "\n";
      assert pages[..p + 1][..p] == pages[..p];
      p := p + 1;
    }
    assert pages[..p] == pages;
    text := Trim(raw);
  }

  /** The `page.Texts.forEach` loop. */
  method AppendItems(raw0: string, items: seq<TextItem>, decode: string -> Option<string>) returns (raw: string)
    ensures raw == raw0 + ItemsText(items, decode)
  {
    raw := raw0;
    var i := 0;
    while i < |items|
      invariant 0 <= i <= |items|
      invariant raw == raw0 + ItemsText(items[..i], decode)
    {
      raw := AppendRuns(raw, items[i], decode);
      ItemsSnoc(items, i, decode);
      AppendAssoc(raw0, ItemsText(items[..i], decode), RunsText(items[i], decode));
      i := i + 1;
    }
    assert items[..i] == items;
  }

  /** The `textItem.R.forEach` loop. */
  method AppendRuns(raw0: string, runs: seq<string>, decode: string -> Option<string>) returns (raw: string)
    ensures raw == raw0 + RunsText(runs, decode)
  {
    raw := raw0;
    var k := 0;
    while k < |runs|
      invariant 0 <= k <= |runs|
      invariant raw == raw0 + RunsText(runs[..k], decode)
    {
      ghost var prev := raw;
      var t := runs[k];
      if t != "" {
        var d := decode(t);
        if d.Some? {
          raw := raw + (d.value + " ");
        } else {
          raw := raw + (t + " ");
        }
      }
      RunsSnoc(runs, k, decode);
      AppendAssoc(raw0, RunsText(runs[..k], decode), RunText(t, decode));
      k := k + 1;
    }
    assert runs[..k] == runs;
  }

  lemma RunsSnoc(runs: seq<string>, k: nat, decode: string -> Option<string>)
    requires k < |runs|
    ensures RunsText(runs[..k + 1], decode) == RunsText(runs[..k], decode) + RunText(runs[k], decode)
  {
    assert runs[..k + 1][..k] == runs[..k];
  }

  lemma ItemsSnoc(items: seq<TextItem>, i: nat, decode: string -> Option<string>)
    requires i < |items|
    ensures ItemsText(items[..i + 1], decode) == ItemsText(items[..i], decode) + RunsText(items[i], decode)
  {
    assert items[..i + 1][..i] == items[..i];
  }

  /** Each page ends with exactly the one newline it adds: a page without runs yields just `"\n"`. */
  lemma PageWithoutText(pages: seq<PdfPage>, page: PdfPage, decode: string -> Option<string>)
    requires forall i :: 0 <= i < |page| ==> forall k :: 0 <= k < |page[i]| ==> page[i][k] == ""
    ensures PagesText(pages + [page], decode) == PagesText(pages, decode) + "\n"
  {
    assert (pages + [page])[..|pages|] == pages;
    RunsEmpty(page, decode);
  }

  lemma {:induction false} RunsEmpty(items: seq<TextItem>, decode: string -> Option<string>)
    requires forall i :: 0 <= i < |items| ==> forall k :: 0 <= k < |items[i]| ==> items[i][k] == ""
    ensures ItemsText(items, decode) == ""
    decreases |items|
  {
    if items != [] {
      RunsEmpty(items[..|items| - 1], decode);
      NoRunText(items[|items| - 1], decode);
    }
  }

  lemma {:induction false} NoRunText(runs: seq<string>, decode: string -> Option<string>)
    requires forall k :: 0 <= k < |runs| ==> runs[k] == ""
    ensures RunsText(runs, decode) == ""
    decreases |runs|
  {
    if runs != [] {
      NoRunText(runs[..|runs| - 1], decode);
    }
  }

  /** A document whose runs carry no text gives the empty string: the page newlines are trimmed away. */
  lemma {:induction false} BlankDocument(pages: seq<PdfPage>, decode: string -> Option<string>)
    requires forall p :: 0 <= p < |pages| ==> forall i :: 0 <= i < |pages[p]| ==> forall k :: 0 <= k < |pages[p][i]| ==> pages[p][i][k] == ""
    ensures AllWhitespace(PagesText(pages, decode))
    ensures PdfText(pages, decode) == ""
    decreases |pages|
  {
    if pages != [] {
      var init := pages[..|pages| - 1];
      BlankDocument(init, decode);
      RunsEmpty(pages[|pages| - 1], decode);
      var s := PagesText(pages, decode);
      assert s == PagesText(init, decode) + "\n";
      forall i | 0 <= i < |s| ensures IsWhitespace(s[i]) {
        if i < |s| - 1 {
          assert s[i] == PagesText(init, decode)[i];
        }
      }
    }
  }

  /** The first index of `c` in `s`. */
  function FirstIndex(s: string, c: char): (r: Option<nat>)
    ensures r.Some? ==> r.value < |s| && s[r.value] == c && forall j :: 0 <= j < r.value ==> s[j] != c
    ensures r.None? ==> forall j :: 0 <= j < |s| ==> s[j] != c
  {
    if s == [] then None
    else if s[0] == c then Some(0)
    else
      match FirstIndex(s[1..], c)
      case None => None
      case Some(i) => Some(i + 1)
  }

  /** The last index of `c` in `s`. */
  function LastIndex(s: string, c: char): (r: Option<nat>)
    ensures r.Some? ==> r.value < |s| && s[r.value] == c && forall j :: r.value < j < |s| ==> s[j] != c
    ensures r.None? ==> forall j :: 0 <= j < |s| ==> s[j] != c
  {
    if s == [] then None
    else if s[|s| - 1] == c then Some(|s| - 1)
    else LastIndex(s[..|s| - 1], c)
  }

  /**
   * The match of `/\{[\s\S]*\}/`: the leftmost `{` that has a `}` after it, extended
   * greedily to the last `}`. It exists exactly when some `{` precedes some `}`.
   */
  function JsonSpan(s: string): (r: Option<string>)
    ensures r.Some? <==> exists i, j :: 0 <= i < j < |s| && s[i] == '{' && s[j] == '}'
    ensures r.Some? ==> FirstIndex(s, '{').Some? && LastIndex(s, '}').Some?
                        && r.value == s[FirstIndex(s, '{').value..LastIndex(s, '}').value + 1]
  {
    var fi := FirstIndex(s, '{');
    var li := LastIndex(s, '}');
    if fi.Some? && li.Some? && fi.value < li.value then Some(s[fi.value..li.value + 1])
    else None
  }

  /** The span starts with `{` and ends with `}`, so it is at least two characters long. */
  lemma JsonSpanShape(s: string)
    requires JsonSpan(s).Some?
    ensures var t := JsonSpan(s).value; |t| >= 2 && t[0] == '{' && t[|t| - 1] == '}'
  {
  }

  /** A reply that already is `{ … }` is taken whole. */
  lemma JsonSpanWhole(s: string)
    requires |s| >= 2 && s[0] == '{' && s[|s| - 1] == '}'
    ensures JsonSpan(s) == Some(s)
  {
    assert s[0..|s|] == s;
  }

  /** Text around the object without braces of its own does not change the span. */
  lemma JsonSpanInContext(pre: string, obj: string, post: string)
    requires |obj| >= 2 && obj[0] == '{' && obj[|obj| - 1] == '}'
    requires forall k :: 0 <= k < |pre| ==> pre[k] != '{'
    requires forall k :: 0 <= k < |post| ==> post[k] != '}'
    ensures JsonSpan(pre + obj + post) == Some(obj)
  {
    var s := pre + obj + post;
    var fi := FirstIndex(s, '{');
    var li := LastIndex(s, '}');
    assert s[|pre|] == '{';
    assert s[|pre| + |obj| - 1] == '}';
    assert forall k :: 0 <= k < |pre| ==> s[k] == pre[k];
    assert forall k :: |pre| + |obj| <= k < |s| ==> s[k] == post[k - |pre| - |obj|];
    assert fi == Some(|pre|);
    assert li == Some(|pre| + |obj| - 1);
    assert s[|pre|..|pre| + |obj|] == obj;
  }

  /** The fields the route reads from a parsed analysis. */
  datatype Analysis = Analysis(
    matchScore: int,
    status: string,
    matchingSkills: seq<string>,
    missingSkills: seq<string>,
    impliedSkills: seq<string>,
    strengths: seq<string>,
    recommendations: seq<string>)

  /**
   * `analyzeResume`, given the service's reply and `JSON.parse`: the analysis, or the
   * message of the error it throws.
   */
  function AnalyzeResume(reply: HttpReply, parse: string -> Outcome<Analysis>): Outcome<Analysis> {
    match reply
    case NetworkError(e) => Failure(e)
    case HttpError(status, statusText) => Failure("Ollama API error: " + IntToString(status) + " " + statusText)
    case HttpOk(text) =>
      match JsonSpan(text)
      case None => Failure("Invalid analysis response format")
      case Some(span) => parse(span)
  }

  /** The analysis succeeds exactly when the reply is OK, holds a `{…}` span, and that span parses; its value is the parsed span. */
  lemma AnalyzeResumeSucceeds(reply: HttpReply, parse: string -> Outcome<Analysis>)
    ensures AnalyzeResume(reply, parse).Success?
        <==> reply.HttpOk? && JsonSpan(reply.response).Some? && parse(JsonSpan(reply.response).value).Success?
    ensures AnalyzeResume(reply, parse).Success? ==> AnalyzeResume(reply, parse) == parse(JsonSpan(reply.response).value)
  {
  }

  /** The failure messages: a non-OK status names itself, and an OK reply without braces is an invalid format. */
  lemma AnalyzeResumeErrors(reply: HttpReply, parse: string -> Outcome<Analysis>)
    ensures reply.HttpError? ==>
              AnalyzeResume(reply, parse) == Failure("Ollama API error: " + IntToString(reply.status) + " " + reply.statusText)
    ensures reply.NetworkError? ==> AnalyzeResume(reply, parse) == Failure(reply.error)
    ensures (reply.HttpOk? && forall i, j :: 0 <= i < j < |reply.response| ==> !(reply.response[i] == '{' && reply.response[j] == '}')) ==>
              AnalyzeResume(reply, parse) == Failure("Invalid analysis response format")
  {
  }
}
