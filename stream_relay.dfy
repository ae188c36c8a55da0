/** The response side of POST /v1/chat/completions: each chunk of the upstream
    completion stream becomes one frame `data: <json>\n\n`, in the order the
    chunks arrive. The chunk serialiser belongs to the upstream client library
    and is taken as a parameter. */
module StreamRelay {
  import opened Results

  const DataPrefix: string := "data: "
  const FrameEnd: string := "\n\n"

  /** The frame that carries one serialised chunk. */
  function Frame(payload: string): (f: string)
    ensures |f| == |DataPrefix| + |payload| + |FrameEnd|
    ensures f[..|DataPrefix|] == DataPrefix
    ensures f[|f| - |FrameEnd|..] == FrameEnd
    ensures f[|DataPrefix|..|f| - |FrameEnd|] == payload
  {
    DataPrefix + payload + FrameEnd
  }

  /** What a reader of one frame takes as its payload; None when the text is
      not a frame. */
  function Unframe(f: string): Option<string>
  {
    if |f| >= |DataPrefix| + |FrameEnd|
       && f[..|DataPrefix|] == DataPrefix
       && f[|f| - |FrameEnd|..] == FrameEnd
    then Some(f[|DataPrefix|..|f| - |FrameEnd|])
    else None
  }

  /** A frame gives back exactly its payload ... */
  lemma UnframeFrame(payload: string)
    ensures Unframe(Frame(payload)) == Some(payload)
  {
  }

  /** ... and every text a reader accepts as a frame is the frame of its payload. */
  lemma FrameUnframe(f: string)
    ensures Unframe(f).Some? ==> Frame(Unframe(f).value) == f
  {
  }

  /** Relays the upstream stream: one frame per chunk, in order, with nothing
      before, between or after them. */
  method ConvertStream<C>(serialise: C -> string, stream: seq<C>) returns (frames: seq<string>)
    ensures |frames| == |stream|
    ensures forall i :: 0 <= i < |stream| ==> frames[i] == Frame(serialise(stream[i]))
  {
    frames := [];
    for i := 0 to |stream|
      invariant |frames| == i
      invariant forall j :: 0 <= j < i ==> frames[j] == Frame(serialise(stream[j]))
    {
      frames := frames + [Frame(serialise(stream[i]))];
    }
  }

  /** The response body: the frames written one after another. */
  function Concat(frames: seq<string>): string
  {
    if frames == [] then [] else frames[0] + Concat(frames[1..])
  }

  /** The length of the line at the start of `s`: the index of its first
      newline, or |s| when it has none. */
  function LineLength(s: string): (k: nat)
    ensures k <= |s|
    ensures forall j :: 0 <= j < k ==> s[j] != '\n'
    ensures k < |s| ==> s[k] == '\n'
  {
    if s == [] || s[0] == '\n' then 0 else 1 + LineLength(s[1..])
  }

  /** How a client splits a response body back into payloads: each frame is
      `data: `, a line, and a blank line. None when the body is not a
      sequence of frames. */
  function ParseBody(body: string): Option<seq<string>>
    decreases |body|
  {
    if body == [] then Some([])
    else if |body| < |DataPrefix| || body[..|DataPrefix|] != DataPrefix then None
    else
      var rest := body[|DataPrefix|..];
      var k := LineLength(rest);
      if |rest| - k < |FrameEnd| || rest[k..k + |FrameEnd|] != FrameEnd then None
      else
        match ParseBody(rest[k + |FrameEnd|..])
        case None => None
        case Some(payloads) => Some([rest[..k]] + payloads)
  }

  lemma {:induction false} ParseOneFrame(payload: string, tail: string)
    requires forall j :: 0 <= j < |payload| ==> payload[j] != '\n'
    ensures var body := Frame(payload) + tail;
            && body != []
            && body[..|DataPrefix|] == DataPrefix
            && LineLength(body[|DataPrefix|..]) == |payload|
            && body[|DataPrefix|..][..|payload|] == payload
            && body[|DataPrefix|..][|payload|..|payload| + |FrameEnd|] == FrameEnd
            && body[|DataPrefix|..][|payload| + |FrameEnd|..] == tail
  {
    var rest := payload + FrameEnd + tail;
    assert Frame(payload) + tail == DataPrefix + rest;
    LineLengthOfLine(payload, FrameEnd + tail);
    assert payload + (FrameEnd + tail) == rest;
  }

  lemma {:induction false} LineLengthOfLine(line: string, tail: string)
    requires forall j :: 0 <= j < |line| ==> line[j] != '\n'
    requires tail != [] && tail[0] == '\n'
    ensures LineLength(line + tail) == |line|
  {
    if line != [] {
      assert (line + tail)[1..] == line[1..] + tail;
      LineLengthOfLine(line[1..], tail);
    }
  }

  /** When no chunk serialises to text with a newline in it (a compact JSON
      text never has one), a client recovers from the response body exactly
      the serialised chunks, in order: framing loses, merges and adds nothing. */
  lemma {:induction false} ParseBodyRecoversPayloads(frames: seq<string>, payloads: seq<string>)
    requires |frames| == |payloads|
    requires forall i :: 0 <= i < |frames| ==> frames[i] == Frame(payloads[i])
    requires forall i, j :: 0 <= i < |payloads| && 0 <= j < |payloads[i]| ==> payloads[i][j] != '\n'
    ensures ParseBody(Concat(frames)) == Some(payloads)
  {
    if frames != [] {
      var tail := Concat(frames[1..]);
      ParseOneFrame(payloads[0], tail);
      ParseBodyRecoversPayloads(frames[1..], payloads[1..]);
      assert [payloads[0]] + payloads[1..] == payloads;
    }
  }
}
