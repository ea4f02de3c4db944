// The clean-up the model-service flows apply to a reply before parsing it:
// `text.replace(/```json\n?/g, '').replace(/```\n?/g, '').trim()`; then `JSON.parse`.
module ReplyCleanup {
  import opened Text
  import opened Outcomes
  import opened JsonValues

  const JsonFence := "```json"
  const Fence := "```"

  /** `s.replace(/<tag>\n?/g, '')`: every occurrence of `tag`, scanning left to right, is removed with the newline right after it. */
  function StripFence(s: string, tag: string): (r: string)
    requires tag != []
    ensures |r| <= |s|
    decreases |s|
  {
    if s == [] then []
    else if StartsWith(s, tag) then
      var rest := s[|tag|..];
      if rest != [] && rest[0] == '\n' then StripFence(rest[1..], tag) else StripFence(rest, tag)
    else [s[0]] + StripFence(s[1..], tag)
  }

  /** The cleaned reply. */
  function Cleanup(s: string): string {
    Trim(StripFence(StripFence(s, JsonFence), Fence))
  }

  /** The parse of the cleaned text of an OK reply; `None` when the call fails, the status is not OK, or `JSON.parse` throws. */
  function ParsedReply(reply: HttpReply, parse: string -> Outcome<Json>): (r: Option<Json>)
    ensures r.Some? <==> reply.HttpOk? && parse(Cleanup(reply.response)).Success?
    ensures r.Some? ==> r.value == parse(Cleanup(reply.response)).value
  {
    if reply.HttpOk? && parse(Cleanup(reply.response)).Success? then Some(parse(Cleanup(reply.response)).value) else None
  }

  predicate NoBacktick(s: string) {
    forall i :: 0 <= i < |s| ==> s[i] != '`'
  }

  /** Text without backticks passes the fence removal unchanged, and so does whatever follows it. */
  lemma {:induction false} StripPlainPrefix(x: string, y: string, tag: string)
    requires tag != [] && tag[0] == '`'
    requires NoBacktick(x)
    ensures StripFence(x + y, tag) == x + StripFence(y, tag)
    decreases |x|
  {
    if x != [] {
      var s := x + y;
      assert s[0] == x[0];
      assert !StartsWith(s, tag);
      assert s[1..] == x[1..] + y;
      StripPlainPrefix(x[1..], y, tag);
    } else {
      assert x + y == y;
    }
  }

  /** A reply without backticks is only trimmed. */
  lemma CleanupPlain(s: string)
    requires NoBacktick(s)
    ensures Cleanup(s) == Trim(s)
  {
    StripPlainPrefix(s, [], JsonFence);
    StripPlainPrefix(s, [], Fence);
    assert s + [] == s;
  }

  /** A reply wrapped in a `json` code fence comes back as its trimmed body. */
  lemma CleanupJsonFenced(body: string)
    requires NoBacktick(body)
    ensures Cleanup(JsonFence + "\n" + body + "\n" + Fence) == Trim(body)
  {
    var x := JsonFence + "\n" + body + "\n" + Fence;
    var t := body + ("\n" + Fence);
    assert x == JsonFence + ("\n" + t) by {
      Regroup(JsonFence, "\n", body, "\n", Fence);
    }
    assert StripFence(x, JsonFence) == t by {
      OpeningFence(JsonFence, t);
      StripPlainPrefix(body, "\n" + Fence, JsonFence);
      NewlineFence();
    }
    FenceTail(body);
  }

  /** A reply wrapped in a bare code fence comes back as its trimmed body. */
  lemma CleanupFenced(body: string)
    requires NoBacktick(body)
    ensures Cleanup(Fence + "\n" + body + "\n" + Fence) == Trim(body)
  {
    var x := Fence + "\n" + body + "\n" + Fence;
    var t := body + ("\n" + Fence);
    assert StripFence(x, JsonFence) == x by {
      BareFenceFirstPass(body);
    }
    assert x == Fence + ("\n" + t) by {
      Regroup(Fence, "\n", body, "\n", Fence);
    }
    assert StripFence(x, Fence) == StripFence(t, Fence) by {
      OpeningFence(Fence, t);
    }
    FenceTail(body);
  }

  /** The fenced reply, grouped as the opening tag, a newline, and the rest. */
  lemma Regroup(a: string, nl: string, body: string, nl2: string, b: string)
    ensures a + nl + body + nl2 + b == a + (nl + (body + (nl2 + b)))
  {
  }

  /** An opening tag and the newline after it are removed together. */
  lemma OpeningFence(tag: string, t: string)
    requires tag != []
    ensures StripFence(tag + ("\n" + t), tag) == StripFence(t, tag)
  {
    var s := tag + ("\n" + t);
    assert s[..|tag|] == tag;
    assert s[|tag|..] == "\n" + t;
    assert ("\n" + t)[1..] == t;
  }

  /** The closing fence with its newline holds no `json` fence. */
  lemma NewlineFence()
    ensures StripFence("\n" + Fence, JsonFence) == "\n" + Fence
  {
    var s := "\n" + Fence;
    assert !StartsWith(s, JsonFence);
    assert s[1..] == Fence;
    NoJsonFence();
  }

  /** The first pass finds no `json` fence in a bare-fenced reply. */
  lemma BareFenceFirstPass(body: string)
    requires NoBacktick(body)
    ensures StripFence(Fence + "\n" + body + "\n" + Fence, JsonFence) == Fence + "\n" + body + "\n" + Fence
  {
    var t := body + ("\n" + Fence);
    Regroup(Fence, "\n", body, "\n", Fence);
    assert StripFence(t, JsonFence) == t by {
      StripPlainPrefix(body, "\n" + Fence, JsonFence);
      NewlineFence();
    }
    BareOpening(t);
  }

  /** A bare opening fence and its newline are not a `json` fence and pass the first pass unchanged. */
  lemma BareOpening(y: string)
    ensures StripFence(Fence + ("\n" + y), JsonFence) == Fence + ("\n" + StripFence(y, JsonFence))
  {
    var s := Fence + ("\n" + y);
    assert s[0] == '`' && s[1] == '`' && s[2] == '`' && s[3] == '\n';
    var s1 := s[1..];
    var s2 := s1[1..];
    var s3 := s2[1..];
    assert s3 == "\n" + y;
    assert JsonFence[3] == 'j' && JsonFence[2] == '`' && JsonFence[1] == '`' && JsonFence[0] == '`';
    Mismatch(s, JsonFence, 3);
    Mismatch(s1, JsonFence, 2);
    Mismatch(s2, JsonFence, 1);
    Mismatch(s3, JsonFence, 0);
    assert s3[1..] == y;
    var r := StripFence(y, JsonFence);
    assert StripFence(s3, JsonFence) == ['\n'] + r;
    assert StripFence(s2, JsonFence) == ['`'] + (['\n'] + r);
    assert StripFence(s1, JsonFence) == ['`'] + (['`'] + (['\n'] + r));
    assert StripFence(s, JsonFence) == ['`'] + (['`'] + (['`'] + (['\n'] + r)));
  }

  /** A string that differs from `tag` at position `k` does not start with it. */
  lemma Mismatch(s: string, tag: string, k: nat)
    requires k < |s| && k < |tag| && s[k] != tag[k]
    ensures !StartsWith(s, tag)
  {
    if |tag| <= |s| {
      assert s[..|tag|][k] == s[k];
    }
  }

  lemma NoJsonFence()
    ensures StripFence(Fence, JsonFence) == Fence
  {
    var f := Fence;
    assert !StartsWith(f, JsonFence);
    assert !StartsWith(f[1..], JsonFence);
    assert !StartsWith(f[1..][1..], JsonFence);
    assert f[1..][1..][1..] == [];
  }

  /** The second pass drops the closing fence, leaving the body with one trailing newline that the trim removes. */
  lemma FenceTail(body: string)
    requires NoBacktick(body)
    ensures Trim(StripFence(body + ("\n" + Fence), Fence)) == Trim(body)
  {
    TailStrip(body);
    TrimPadded([], body, "\n");
    assert [] + body + "\n" == body + "\n";
  }

  lemma TailStrip(body: string)
    requires NoBacktick(body)
    ensures StripFence(body + ("\n" + Fence), Fence) == body + "\n"
  {
    var y := body + "\n";
    assert NoBacktick(y) by {
      forall i | 0 <= i < |y| ensures y[i] != '`' {
        if i < |body| { assert y[i] == body[i]; }
      }
    }
    StripPlainPrefix(y, Fence, Fence);
    assert body + ("\n" + Fence) == y + Fence;
    ClosingFence();
  }

  lemma ClosingFence()
    ensures StripFence(Fence, Fence) == []
  {
    assert StartsWith(Fence, Fence);
    assert Fence[|Fence|..] == [];
  }
}
