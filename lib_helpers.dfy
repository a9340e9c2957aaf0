/** lib/helpers.ts: the JSON clean-up of model replies, audio stream buffering and the prompt fills. */
module LibHelpers {
  import opened Wrappers
  import opened JsStrings

  /*
   * cleanJSONResponse
   */

  const OPEN_FENCE := "```json"
  const CLOSE_FENCE := "```"

  /*
   * Each stage of the chain only cuts text off the two ends, so the model follows the bounds
   * `[lo, hi)` of what is left of `raw`.
   */

  /** Where the text starts after `.replace(/^```json\s*\/, "")`: one fence and the white space after it. */
  function OpenFenceEnd(raw: string): (lo: nat)
    ensures lo <= |raw|
  {
    if OPEN_FENCE <= raw then SkipWs(raw, |OPEN_FENCE|, |raw|) else 0
  }

  /**
   * Where the text ends after `.replace(/\s*```$/, "")` on `raw[lo..]`: the leftmost match is the
   * whole white-space run before a final fence, so both go.
   */
  function CloseFenceStart(raw: string, lo: nat): (hi: nat)
    requires lo <= |raw|
    ensures lo <= hi <= |raw|
  {
    if |raw| - lo >= |CLOSE_FENCE| && raw[|raw| - |CLOSE_FENCE|..] == CLOSE_FENCE
    then BackWs(raw, lo, |raw| - |CLOSE_FENCE|)
    else |raw|
  }

  /** The bounds of the text `cleanJSONResponse` hands to `JSON.parse`, after the final `.trim()`. */
  function CleanBounds(raw: string): (b: (nat, nat))
    ensures b.0 <= b.1 <= |raw|
  {
    var lo := OpenFenceEnd(raw);
    var hi := CloseFenceStart(raw, lo);
    var lo' := SkipWs(raw, lo, hi);
    (lo', BackWs(raw, lo', hi))
  }

  /** The text handed to `JSON.parse`. */
  function CleanJsonText(raw: string): string {
    raw[CleanBounds(raw).0..CleanBounds(raw).1]
  }

  /** `cleanJSONResponse`, with `JSON.parse` as `parse`: a syntax error is an `Err`. */
  function CleanJsonResponse<J>(raw: string, parse: string -> Result<J>): Result<J> {
    parse(CleanJsonText(raw))
  }

  /**
   * What is cut off the front is at most one opening fence and white space; what is cut off the
   * back is at most one closing fence and white space; what is kept has no white space at either end.
   */
  lemma CleanCuts(raw: string)
    ensures var (lo, hi) := CleanBounds(raw);
      && (forall m :: (if OPEN_FENCE <= raw then |OPEN_FENCE| else 0) <= m < lo ==> IsWhitespace(raw[m]))
      && (lo < |OPEN_FENCE| ==> !(OPEN_FENCE <= raw) && forall m :: 0 <= m < lo ==> IsWhitespace(raw[m]))
      && (hi < |raw| ==> forall m :: hi <= m < |raw| ==>
            IsWhitespace(raw[m]) || (m >= |raw| - |CLOSE_FENCE| && raw[|raw| - |CLOSE_FENCE|..] == CLOSE_FENCE))
      && (lo < hi ==> !IsWhitespace(raw[lo]) && !IsWhitespace(raw[hi - 1]))
  {
  }

  /** A reply without fences is only trimmed. */
  lemma CleanUnfenced(raw: string)
    requires !(OPEN_FENCE <= raw)
    requires !(|raw| >= |CLOSE_FENCE| && raw[|raw| - |CLOSE_FENCE|..] == CLOSE_FENCE)
    ensures CleanJsonText(raw) == Trim(raw)
  {
  }

  /** A fence without the `json` tag is not an opening fence: it reaches the parser. */
  lemma CleanKeepsUntaggedFence(raw: string)
    requires "```" <= raw && !(OPEN_FENCE <= raw) && |raw| >= 6
    ensures "```" <= CleanJsonText(raw)
  {
    var hi := CloseFenceStart(raw, 0);
    assert !IsWhitespace(raw[2]);
    assert hi >= 3;
    var lo' := SkipWs(raw, 0, hi);
    assert lo' == 0 by { assert !IsWhitespace(raw[0]); }
    assert BackWs(raw, 0, hi) >= 3;
    assert CleanJsonText(raw)[..3] == raw[..3];
  }

  /** Only one opening fence is removed: a second one stays in the text. */
  lemma OneOpenFenceOnly(rest: string)
    ensures OpenFenceEnd(OPEN_FENCE + OPEN_FENCE + rest) == |OPEN_FENCE|
  {
    var s := OPEN_FENCE + OPEN_FENCE + rest;
    assert OPEN_FENCE <= s;
    assert s[7] == '`';
  }

  /** A reply laid out as an opening fence, white space, a body, white space and a closing fence. */
  ghost predicate FencedLayout(raw: string, ws1: string, body: string, ws2: string) {
    && |raw| == |OPEN_FENCE| + |ws1| + |body| + |ws2| + |CLOSE_FENCE|
    && OPEN_FENCE <= raw
    && (forall m :: |OPEN_FENCE| <= m < |OPEN_FENCE| + |ws1| ==> IsWhitespace(raw[m]))
    && (forall m :: 0 <= m < |body| ==> raw[|OPEN_FENCE| + |ws1| + m] == body[m])
    && (forall m :: |raw| - |CLOSE_FENCE| - |ws2| <= m < |raw| - |CLOSE_FENCE| ==> IsWhitespace(raw[m]))
    && raw[|raw| - |CLOSE_FENCE|..] == CLOSE_FENCE
  }

  lemma FencedLayoutOf(ws1: string, body: string, ws2: string)
    requires forall m :: 0 <= m < |ws1| ==> IsWhitespace(ws1[m])
    requires forall m :: 0 <= m < |ws2| ==> IsWhitespace(ws2[m])
    ensures FencedLayout(OPEN_FENCE + ws1 + body + ws2 + CLOSE_FENCE, ws1, body, ws2)
  {
    var raw := OPEN_FENCE + ws1 + body + ws2 + CLOSE_FENCE;
    var off := |OPEN_FENCE| + |ws1|;
    var end := off + |body|;
    assert raw[..|OPEN_FENCE|] == OPEN_FENCE;
    assert forall m :: |OPEN_FENCE| <= m < off ==> raw[m] == ws1[m - |OPEN_FENCE|];
    assert forall m :: 0 <= m < |body| ==> raw[off + m] == body[m];
    assert forall m :: end <= m < end + |ws2| ==> raw[m] == ws2[m - end];
    assert raw[|raw| - 3..] == CLOSE_FENCE;
  }

  /**
   * The intended round trip: a body wrapped as a ```json block, with any white space around it,
   * comes back as the trimmed body.
   */
  lemma CleanFencedBlock(ws1: string, body: string, ws2: string)
    requires forall m :: 0 <= m < |ws1| ==> IsWhitespace(ws1[m])
    requires forall m :: 0 <= m < |ws2| ==> IsWhitespace(ws2[m])
    ensures CleanJsonText(OPEN_FENCE + ws1 + body + ws2 + CLOSE_FENCE) == Trim(body)
  {
    var raw := OPEN_FENCE + ws1 + body + ws2 + CLOSE_FENCE;
    FencedLayoutOf(ws1, body, ws2);
    CleanLayout(raw, ws1, body, ws2);
  }

  lemma CleanLayout(raw: string, ws1: string, body: string, ws2: string)
    requires FencedLayout(raw, ws1, body, ws2)
    ensures CleanJsonText(raw) == Trim(body)
  {
    if TrimBounds(body).0 < |body| {
      CleanLayoutText(raw, ws1, body, ws2);
      var off := |OPEN_FENCE| + |ws1|;
      var (b0, b1) := TrimBounds(body);
      assert raw[off + b0..off + b1] == body[b0..b1];
    } else {
      CleanLayoutBlank(raw, ws1, body, ws2);
    }
  }

  lemma CleanLayoutText(raw: string, ws1: string, body: string, ws2: string)
    requires FencedLayout(raw, ws1, body, ws2) && TrimBounds(body).0 < |body|
    ensures CleanBounds(raw) == (|OPEN_FENCE| + |ws1| + TrimBounds(body).0, |OPEN_FENCE| + |ws1| + TrimBounds(body).1)
  {
    var off := |OPEN_FENCE| + |ws1|;
    var (b0, b1) := TrimBounds(body);
    OpenOfLayout(raw, ws1, body, ws2);
    CloseOfLayout(raw, ws1, body, ws2);
    assert b0 < b1 && !IsWhitespace(body[b1 - 1]) && !IsWhitespace(body[b0]);
    assert raw[off + b0] == body[b0] && raw[off + b1 - 1] == body[b1 - 1];
    SkipWsUnique(raw, off + b0, off + b1, off + b0);
    BackWsUnique(raw, off + b0, off + b1, off + b1);
  }

  lemma OpenOfLayout(raw: string, ws1: string, body: string, ws2: string)
    requires FencedLayout(raw, ws1, body, ws2) && TrimBounds(body).0 < |body|
    ensures OpenFenceEnd(raw) == |OPEN_FENCE| + |ws1| + TrimBounds(body).0
  {
    var off := |OPEN_FENCE| + |ws1|;
    var b0 := TrimBounds(body).0;
    forall m | |OPEN_FENCE| <= m < off + b0 ensures IsWhitespace(raw[m]) {
      if m >= off { assert raw[m] == body[m - off]; }
    }
    assert raw[off + b0] == body[b0];
    SkipWsUnique(raw, |OPEN_FENCE|, |raw|, off + b0);
  }

  lemma CloseOfLayout(raw: string, ws1: string, body: string, ws2: string)
    requires FencedLayout(raw, ws1, body, ws2) && TrimBounds(body).0 < |body|
    ensures CloseFenceStart(raw, |OPEN_FENCE| + |ws1| + TrimBounds(body).0) == |OPEN_FENCE| + |ws1| + TrimBounds(body).1
  {
    var off := |OPEN_FENCE| + |ws1|;
    var end := off + |body|;
    var (b0, b1) := TrimBounds(body);
    assert b0 < b1 && !IsWhitespace(body[b1 - 1]);
    forall m | off + b1 <= m < |raw| - 3 ensures IsWhitespace(raw[m]) {
      if m < end { assert raw[m] == body[m - off]; }
    }
    assert raw[off + b1 - 1] == body[b1 - 1];
    BackWsUnique(raw, off + b0, |raw| - 3, off + b1);
  }

  lemma CleanLayoutBlank(raw: string, ws1: string, body: string, ws2: string)
    requires FencedLayout(raw, ws1, body, ws2) && TrimBounds(body).0 == |body|
    ensures CleanJsonText(raw) == [] && Trim(body) == []
  {
    var off := |OPEN_FENCE| + |ws1|;
    var end := off + |body|;
    assert raw[|raw| - 3] == raw[|raw| - 3..][0];
    forall m | |OPEN_FENCE| <= m < |raw| - 3 ensures IsWhitespace(raw[m]) {
      if off <= m < end { assert raw[m] == body[m - off]; }
    }
    SkipWsUnique(raw, |OPEN_FENCE|, |raw|, |raw| - 3);
  }

  /*
   * getAudioBuffer
   */

  newtype byte = x: int | 0 <= x < 256

  /** What one `reader.read()` delivers: a chunk, the end of the stream, or a rejected read. */
  datatype ReadResult = Chunk(bytes: seq<byte>) | End | ReadError(reason: string)

  /** A locked reader over a stream; `script` lists what successive reads deliver. */
  class StreamReader {
    const script: seq<ReadResult>
    var pos: nat
    var locked: bool
    var cancelled: bool

    /** `byteStream.getReader()`. */
    constructor (script: seq<ReadResult>)
      ensures this.script == script && pos == 0 && locked && !cancelled
    {
      this.script := script;
      pos, locked, cancelled := 0, true, false;
    }

    /** `reader.read()`: the next item; a finished stream keeps reporting its end. */
    method Read() returns (r: ReadResult)
      modifies this
      ensures r == if old(pos) < |script| then script[old(pos)] else End
      ensures pos == if old(pos) < |script| then old(pos) + 1 else old(pos)
      ensures locked == old(locked) && cancelled == old(cancelled)
    {
      if pos < |script| {
        r := script[pos];
        pos := pos + 1;
      } else {
        r := End;
      }
    }

    /** `reader.cancel(err)`. */
    method Cancel()
      modifies this
      ensures cancelled && pos == old(pos) && locked == old(locked)
    {
      cancelled := true;
    }

    /** `reader.releaseLock()`. */
    method ReleaseLock()
      modifies this
      ensures !locked && pos == old(pos) && cancelled == old(cancelled)
    {
      locked := false;
    }
  }

  /** The chunks read before the end of the stream, or the reason of the first rejected read. */
  function Drain(script: seq<ReadResult>): Result<seq<seq<byte>>> {
    if script == [] then Ok([])
    else match script[0]
      case End => Ok([])
      case ReadError(e) => Err(e)
      case Chunk(b) =>
        match Drain(script[1..])
        case Ok(cs) => Ok([b] + cs)
        case Err(e) => Err(e)
  }

  function Concat(cs: seq<seq<byte>>): seq<byte> {
    if cs == [] then [] else cs[0] + Concat(cs[1..])
  }

  /** The sum of the chunk lengths. */
  function TotalLength(cs: seq<seq<byte>>): nat {
    if cs == [] then 0 else |cs[0]| + TotalLength(cs[1..])
  }

  lemma {:induction false} ConcatLength(cs: seq<seq<byte>>)
    ensures |Concat(cs)| == TotalLength(cs)
  {
    if cs != [] {
      ConcatLength(cs[1..]);
    }
  }

  lemma {:induction false} ConcatAppend(cs: seq<seq<byte>>, b: seq<byte>)
    ensures Concat(cs + [b]) == Concat(cs) + b
    ensures TotalLength(cs + [b]) == TotalLength(cs) + |b|
  {
    if cs != [] {
      assert (cs + [b])[1..] == cs[1..] + [b];
      ConcatAppend(cs[1..], b);
    }
  }

  function Zeros(n: nat): (r: seq<byte>)
    ensures |r| == n
    ensures forall i :: 0 <= i < n ==> r[i] == 0
  {
    seq(n, _ => 0)
  }

  /** `Buffer.concat(list, totalLength)`: the joined bytes cut or zero-filled to `totalLength`. */
  function BufferConcat(list: seq<seq<byte>>, totalLength: nat): (r: seq<byte>)
    ensures |r| == totalLength
  {
    var joined := Concat(list);
    if totalLength <= |joined| then joined[..totalLength] else joined + Zeros(totalLength - |joined|)
  }

  /** With the running total as the length, `Buffer.concat` is the plain concatenation. */
  lemma BufferConcatExact(list: seq<seq<byte>>)
    ensures BufferConcat(list, TotalLength(list)) == Concat(list)
  {
    ConcatLength(list);
  }

  /** What `getAudioBuffer` resolves to: the chunks in read order, or the read error rethrown. */
  function AudioBufferOf(script: seq<ReadResult>): Result<seq<byte>> {
    match Drain(script)
    case Ok(cs) => Ok(Concat(cs))
    case Err(e) => Err(e)
  }

  /** The chunks read so far followed by whatever the rest of the stream yields make up the whole. */
  ghost predicate DrainedSoFar(script: seq<ReadResult>, pos: nat, buffers: seq<seq<byte>>)
    requires pos <= |script|
  {
    match Drain(script[pos..])
    case Ok(cs) => Drain(script) == Ok(buffers + cs)
    case Err(e) => Drain(script) == Err(e)
  }

  /** One chunk read: the chunks of the rest of the stream follow it. */
  lemma DrainChunk(script: seq<ReadResult>, p: nat)
    requires p < |script| && script[p].Chunk?
    ensures Drain(script[p..]) == match Drain(script[p + 1..])
      case Ok(cs) => Ok([script[p].bytes] + cs)
      case Err(e) => Err(e)
  {
    assert script[p..][0] == script[p];
    assert script[p..][1..] == script[p + 1..];
  }

  /** `getAudioBuffer`. */
  method GetAudioBuffer(reader: StreamReader) returns (r: Result<seq<byte>>)
    requires reader.pos == 0 && reader.locked && !reader.cancelled
    modifies reader
    ensures r == AudioBufferOf(reader.script)
    ensures r.Ok? ==> |r.value| == TotalLength(Drain(reader.script).value)
    ensures !reader.locked
    ensures reader.cancelled <==> Drain(reader.script).Err?
  {
    var buffers: seq<seq<byte>> := [];
    var totalLength: nat := 0;
    assert reader.script[0..] == reader.script;
    assert Drain(reader.script).Ok? ==> buffers + Drain(reader.script).value == Drain(reader.script).value;
    while true
      invariant reader.pos <= |reader.script| && reader.locked && !reader.cancelled
      invariant DrainedSoFar(reader.script, reader.pos, buffers)
      invariant totalLength == TotalLength(buffers)
      decreases |reader.script| - reader.pos
    {
      var p := reader.pos;
      var item := reader.Read();
      if item.End? {
        assert p < |reader.script| ==> reader.script[p..][0] == End;
        break;
      }
      if item.ReadError? {
        assert reader.script[p..][0] == item;
        reader.Cancel();
        reader.ReleaseLock();
        return Err(item.reason);
      }
      DrainChunk(reader.script, p);
      assert Drain(reader.script[reader.pos..]).Ok? ==>
        buffers + ([item.bytes] + Drain(reader.script[reader.pos..]).value)
        == (buffers + [item.bytes]) + Drain(reader.script[reader.pos..]).value;
      ConcatAppend(buffers, item.bytes);
      buffers := buffers + [item.bytes];
      totalLength := totalLength + |item.bytes|;
    }
    reader.ReleaseLock();
    assert Drain(reader.script) == Ok(buffers + []);
    assert buffers + [] == buffers;
    BufferConcatExact(buffers);
    ConcatLength(buffers);
    r := Ok(BufferConcat(buffers, totalLength));
  }

  /*
   * titleGenerator and enhancePrompt
   */

  const CONTENT_SLOT := "{{CONTENT}}"
  const PROMPT_SLOT := "{{PROMPT}}"

  /** The prompt `titleGenerator` sends: the first `{{CONTENT}}` of the template replaced by the content. */
  function TitlePrompt(template: string, content: string): string {
    ReplaceFirst(template, CONTENT_SLOT, content)
  }

  /** The prompt `enhancePrompt` sends: the first `{{PROMPT}}` of the template replaced by the user prompt. */
  function EnhancePromptText(template: string, prompt: string): string {
    ReplaceFirst(template, PROMPT_SLOT, prompt)
  }

  /**
   * `generateContentViaGemini`: the text of the model's reply to a prompt, which the SDK leaves
   * undefined (`None`) when the reply has no text part; a failed request is an `Err`.
   */
  type Gemini = string -> Result<Option<string>>

  /** `titleGenerator`: the model's reply to the filled prompt. */
  function TitleGenerator(template: string, content: string, gemini: Gemini): Result<Option<string>> {
    gemini(TitlePrompt(template, content))
  }

  /** `enhancePrompt`: the model's reply to the filled prompt. */
  function EnhancePrompt(template: string, prompt: string, gemini: Gemini): Result<Option<string>> {
    gemini(EnhancePromptText(template, prompt))
  }

  /** The content lands where the template's first `{{CONTENT}}` was; everything else is kept. */
  lemma TitlePromptFills(head: string, rest: string, content: string)
    requires NoDoubleBrace(head) && DollarFree(content)
    ensures TitlePrompt(head + CONTENT_SLOT + rest, content) == head + content + rest
  {
    FillOne(head, CONTENT_SLOT, rest, content);
  }

  /** The user prompt lands where the template's first `{{PROMPT}}` was; everything else is kept. */
  lemma EnhancePromptFills(head: string, rest: string, prompt: string)
    requires NoDoubleBrace(head) && DollarFree(prompt)
    ensures EnhancePromptText(head + PROMPT_SLOT + rest, prompt) == head + prompt + rest
  {
    FillOne(head, PROMPT_SLOT, rest, prompt);
  }
}
