/**
 * What both LLM-backed services (review analysis and venue enrichment) do with a reply
 * before parsing it: take the first text block of the message and strip a Markdown
 * code fence the model may have wrapped around its JSON.
 */
module LlmReply {
  import opened Wrappers
  import opened Text

  /** One content block of a Messages API reply. */
  datatype Block = TextBlock(text: string) | OtherBlock

  /** The outcome of one `client.messages.create` call: it raised, or it returned content blocks. */
  datatype Reply = CallFailed | Message(content: seq<Block>)

  /** `next((c for c in content if c.type == "text"), None)`. */
  function FirstText(content: seq<Block>): (r: Option<string>)
    ensures r.None? <==> forall i :: 0 <= i < |content| ==> !content[i].TextBlock?
    ensures r.Some? ==> exists i :: 0 <= i < |content| && content[i] == TextBlock(r.value)
                                  && forall j :: 0 <= j < i ==> !content[j].TextBlock?
  {
    if content == [] then None
    else if content[0].TextBlock? then
      Some(content[0].text)
    else
      var r := FirstText(content[1..]);
      if r.Some? then
        var i :| 0 <= i < |content[1..]| && content[1..][i] == TextBlock(r.value)
                 && forall j :: 0 <= j < i ==> !content[1..][j].TextBlock?;
        assert content[i + 1] == TextBlock(r.value);
        assert forall j :: 0 <= j < i + 1 ==> !content[j].TextBlock? by {
          forall j | 0 <= j < i + 1 ensures !content[j].TextBlock? {
            if j > 0 { assert content[j] == content[1..][j - 1]; }
          }
        }
        r
      else
        assert forall i :: 0 <= i < |content| ==> !content[i].TextBlock? by {
          forall i | 0 <= i < |content| ensures !content[i].TextBlock? {
            if i > 0 { assert content[i] == content[1..][i - 1]; }
          }
        }
        r
  }

  const Fence := "```"

  /**
   * The fence stripper: `strip()` the text; if it then starts with three backticks,
   * `lstrip("`")`, `removeprefix("json")`, `strip()`, `rstrip("`")` and `strip()` again.
   */
  function StripCodeFence(text: string): (r: string)
    ensures IsStripped(r)
    ensures !StartsWith(Strip(text), Fence) ==> r == Strip(text)
  {
    var raw := Strip(text);
    if StartsWith(raw, Fence) then
      var inner := Strip(RemovePrefix(LStrip(raw, IsBacktick), "json"));
      Strip(RStrip(inner, IsBacktick))
    else
      raw
  }

  /** The text the service hands to `json.loads`, or `None` when the attempt raises before that. */
  function ReplyPayload(reply: Reply): (r: Option<string>)
    ensures reply.CallFailed? ==> r.None?
    ensures reply.Message? ==> (r.None? <==> FirstText(reply.content).None?)
    ensures reply.Message? && r.Some? ==> r.value == StripCodeFence(FirstText(reply.content).value)
  {
    match reply
    case CallFailed => None
    case Message(content) =>
      match FirstText(content)
      case None => None
      case Some(t) => Some(StripCodeFence(t))
  }

  /** `lstrip` removes exactly a run of droppable characters that ends before a kept one. */
  lemma {:induction false} LStripExact(p: string, q: string, drop: char -> bool)
    requires forall i :: 0 <= i < |p| ==> drop(p[i])
    requires q == [] || !drop(q[0])
    ensures LStrip(p + q, drop) == q
  {
    if p == [] {
      assert p + q == q;
    } else {
      assert (p + q)[0] == p[0];
      assert (p + q)[1..] == p[1..] + q;
      LStripExact(p[1..], q, drop);
    }
  }

  /** `rstrip` removes exactly a run of droppable characters that starts after a kept one. */
  lemma {:induction false} RStripExact(p: string, q: string, drop: char -> bool)
    requires forall i :: 0 <= i < |q| ==> drop(q[i])
    requires p == [] || !drop(p[|p| - 1])
    ensures RStrip(p + q, drop) == p
  {
    if q == [] {
      assert p + q == p;
    } else {
      var s := p + q;
      assert s[|s| - 1] == q[|q| - 1];
      assert s[..|s| - 1] == p + q[..|q| - 1];
      RStripExact(p, q[..|q| - 1], drop);
    }
  }

  /** Text that is already stripped and unfenced reaches `json.loads` unchanged. */
  lemma {:induction false} UnfencedUnchanged(body: string)
    requires IsStripped(body) && !StartsWith(body, Fence)
    ensures StripCodeFence(body) == body
  {
    StripStripped(body);
  }

  /** Stripping white space from both ends of "<ws><core><ws>" leaves the core. */
  lemma StripAround(pre: string, core: string, post: string)
    requires forall i :: 0 <= i < |pre| ==> IsSpace(pre[i])
    requires forall i :: 0 <= i < |post| ==> IsSpace(post[i])
    requires core != [] && IsStripped(core)
    ensures Strip(pre + core + post) == core
  {
    assert pre + core + post == pre + (core + post);
    LStripExact(pre, core + post, IsSpace);
    RStripExact(core, post, IsSpace);
  }

  /** The opening backticks go. */
  lemma OpeningBackticksRemoved(rest: string)
    requires rest == [] || !IsBacktick(rest[0])
    ensures LStrip(Fence + rest, IsBacktick) == rest
  {
    LStripExact(Fence, rest, IsBacktick);
  }

  /** After a ```` ```json ```` opening, the tag goes. */
  lemma JsonTagRemoved(tail: string)
    ensures RemovePrefix(LStrip(Fence + "json" + tail, IsBacktick), "json") == tail
  {
    assert Fence + "json" + tail == Fence + ("json" + tail);
    OpeningBackticksRemoved("json" + tail);
    assert StartsWith("json" + tail, "json");
    assert ("json" + tail)[4..] == tail;
  }

  /** After a bare ```` ``` ```` opening, a newline-led rest is kept. */
  lemma BareOpeningRemoved(tail: string)
    requires tail != [] && tail[0] == '\n'
    ensures RemovePrefix(LStrip(Fence + tail, IsBacktick), "json") == tail
  {
    OpeningBackticksRemoved(tail);
  }

  /** The first two steps of the fenced path: the opening backticks and the optional tag go. */
  lemma OpeningRemoved(body: string, tag: string)
    requires tag == "json" || tag == ""
    ensures RemovePrefix(LStrip(Fence + tag + "\n" + body + "\n" + Fence, IsBacktick), "json")
            == "\n" + body + "\n" + Fence
  {
    var tail := "\n" + body + "\n" + Fence;
    assert Fence + tag + "\n" + body + "\n" + Fence == Fence + tag + tail;
    if tag == "json" {
      JsonTagRemoved(tail);
    } else {
      assert Fence + tag + tail == Fence + tail;
      BareOpeningRemoved(tail);
    }
  }

  /** The remaining steps of the fenced path, for an empty body. */
  lemma EmptyClosingRemoved()
    ensures Strip(RStrip(Strip("\n\n" + Fence), IsBacktick)) == ""
  {
    assert "\n\n" + Fence == "\n\n" + Fence + [];
    StripAround("\n\n", Fence, []);
    assert Fence == [] + Fence;
    RStripExact([], Fence, IsBacktick);
    assert LStrip([], IsSpace) == [];
  }

  /** The leading newline goes. */
  lemma ClosingStripNewline(body: string)
    requires body != [] && IsStripped(body)
    ensures Strip("\n" + body + "\n" + Fence) == body + "\n" + Fence
  {
    var mid := body + "\n" + Fence;
    assert "\n" + body + "\n" + Fence == "\n" + mid + [];
    assert mid[0] == body[0] && mid[|mid| - 1] == '`';
    StripAround("\n", mid, []);
  }

  /** The closing backticks go. */
  lemma ClosingStripBackticks(body: string)
    requires body != []
    ensures RStrip(body + "\n" + Fence, IsBacktick) == body + "\n"
  {
    assert body + "\n" + Fence == (body + "\n") + Fence;
    RStripExact(body + "\n", Fence, IsBacktick);
  }

  /** The trailing newline goes. */
  lemma ClosingStripTrailing(body: string)
    requires body != [] && IsStripped(body)
    ensures Strip(body + "\n") == body
  {
    assert body + "\n" == [] + body + "\n";
    StripAround([], body, "\n");
  }

  /** The remaining steps of the fenced path: spaces, the closing backticks and the newline go. */
  lemma ClosingRemoved(body: string)
    requires IsStripped(body)
    ensures Strip(RStrip(Strip("\n" + body + "\n" + Fence), IsBacktick)) == body
  {
    if body == [] {
      assert "\n" + body + "\n" + Fence == "\n\n" + Fence;
      EmptyClosingRemoved();
    } else {
      ClosingStripNewline(body);
      ClosingStripBackticks(body);
      ClosingStripTrailing(body);
    }
  }

  /** On stripped text that opens with a fence, the stripper takes its fenced path. */
  lemma FencedPath(text: string)
    requires IsStripped(text) && StartsWith(text, Fence)
    ensures StripCodeFence(text)
            == Strip(RStrip(Strip(RemovePrefix(LStrip(text, IsBacktick), "json")), IsBacktick))
  {
    StripStripped(text);
  }

  /**
   * A stripped JSON body wrapped as "```json\n<body>\n```" (or without the `json` tag)
   * comes out of the stripper as the body alone.
   */
  lemma {:induction false} FenceRoundTrip(body: string, tag: string)
    requires tag == "json" || tag == ""
    requires IsStripped(body)
    ensures StripCodeFence(Fence + tag + "\n" + body + "\n" + Fence) == body
  {
    var text := Fence + tag + "\n" + body + "\n" + Fence;
    assert text[0] == '`' && text[|text| - 1] == '`';
    assert text[..3] == Fence;
    FencedPath(text);
    OpeningRemoved(body, tag);
    ClosingRemoved(body);
  }
}
