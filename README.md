# Mistral chat-completion relay: the data logic

The relay is a small HTTP service. It accepts OpenAI-style chat-completion
requests, puts a fixed system instruction in front of the conversation,
forwards the request to Mistral's OpenAI-compatible API and streams the answer
back. It also re-exposes the upstream model list. Most of it is network and
framework plumbing. This project models the three pieces of deterministic data
logic in `main.py` and proves what they promise:

- **Request to upstream call** (`Completions`). The parsed body becomes the
  arguments of the upstream call. The fixed system message (`System`, the exact
  text of the constant) is inserted at index 0 of the `messages` list, in
  place. `model` is copied verbatim. Each of `max_tokens`, `tools`,
  `tool_choice`, `stream`, `top_p` and `temperature` is copied verbatim, or it
  becomes the not-given marker when the body lacks it. The marker is a
  tri-state `Param = NotGiven | Given(v)`, where `v` may itself be JSON null or
  false. The bodies the code refuses before calling upstream are modelled as
  `RequestError` values: a body that does not parse, a body that is not an
  object, a missing `messages`, a `messages` that is not a list (it has no
  `insert`), and a missing `model`. They are checked in the code's order.
  Python's `list.insert` is modelled with its index rules (`ListInsert`) on a
  `MessageList` object whose `Insert` changes its `items` in place.
  `UpstreamFields` says what the upstream client sends for a call: a not-given
  argument is left out.
- **Stream framing** (`StreamRelay`). Each upstream chunk becomes one frame,
  `"data: " + json + "\n\n"`, in order. Nothing is added before, between or
  after the frames. The chunk serialiser (the client library's
  `model_dump_json`) is a function parameter. `ParseBody` is how a client splits
  the response body back into payloads. The main lemma shows that it recovers
  exactly the serialised chunks, in order.
- **Model-list reshape** (`ModelListing`). The loop builds one record per
  upstream model with exactly the keys `id`, `object`, `created` and
  `owned_by`. The result is wrapped as `{"object": "list", "data": data}`.
  `DecodeModelList` reads such a response back, and the round-trip lemmas show
  that it yields the upstream list unchanged.

JSON values are the datatype `JsonValues.Value`. Parsing is not modelled: the
outcome of `json.loads` is an input, `Option<Value>`, where `None` means the
parse failed. The upstream model list and the chunk stream are given finite
sequences.

What `main.py` does and does not do, as modelled:

- The relay writes no terminal marker after the last frame.
- Body keys other than `model`, `messages` and the six optional ones are not
  forwarded to upstream.
- The only errors raised before the upstream call are the request errors
  above. Upstream failures are not turned into responses of their own.
- The chat endpoint always answers with a streaming response, and its frames
  come from iterating over what the upstream call returned. The upstream client
  returns an iterable chunk stream only when `stream` is given and true. When
  `stream` is absent, false or null, it returns a single completion object.
  Iterating over that fails after the response headers have gone out, so the
  caller gets an aborted body with no frames. The framing model covers the
  streamed case only.

## Model

| member | source | states |
|---|---|---|
| `Completions.SystemMessage` | main.py:69 | the inserted message is an object with exactly the keys `role` and `content`, holding `"system"` and the fixed instruction of main.py:27-35 |
| `Completions.Get` | main.py:74-79 | `data.get(key, NOT_GIVEN)`: the result is given exactly when the key is in the body, and then it is the body's value verbatim, null or false included |
| `Completions.InsertPosition` | main.py:69 | the position `list.insert` uses: a non-negative index is clamped to the list length, and a negative one counts from the end and is clamped at 0 |
| `Completions.ListInsert` | main.py:69 | inserting makes the list one longer, puts the element at the insert position, keeps the elements before it and shifts the rest up by one, in order |
| `Completions.ListInsertUndone` | main.py:69 | removing the inserted element gives back the original list, so the insert drops and reorders nothing |
| `Completions.MessageList.Insert` | main.py:69 | the message list object is changed in place to the list with the element inserted |
| `Completions.ChatCompletions` | main.py:65-80 | a body that does not parse, is not an object, lacks `messages`, has a non-list `messages` or lacks `model` gives that error, in that order, and no call; otherwise it succeeds, and the call has `model` verbatim, messages equal to the system message followed by every caller message in order (length one more), and each optional key given with the body's value when present and not given when absent |
| `Completions.UpstreamSeesCallerFields` | main.py:71-80 | for such a call, the upstream request holds `model`, the augmented `messages` and exactly the optional keys the caller supplied, each with the caller's value; an absent key is never sent, not even as null or a default |
| `StreamRelay.Frame` | main.py:85 | a frame starts with `data: `, ends with a blank line, and its middle is exactly the serialised chunk |
| `StreamRelay.UnframeFrame` | main.py:85 | reading a frame back gives exactly its payload |
| `StreamRelay.FrameUnframe` | main.py:85 | any text a reader accepts as a frame is the frame of the payload it reads, so framing is a bijection between payloads and frames |
| `StreamRelay.ConvertStream` | main.py:82-85 | the frame sequence has one frame per upstream chunk, and frame i is the frame of chunk i's serialisation: no batching, reordering or extra frame |
| `StreamRelay.ParseBodyRecoversPayloads` | main.py:82-87 | when no serialised chunk contains a newline, a client splitting the response body recovers exactly the serialised chunks, in order |
| `ModelListing.Entry` | main.py:54-59 | a model's record has exactly the keys `id`, `object`, `created` and `owned_by` |
| `ModelListing.EntryRoundTrip` | main.py:54-59 | reading a record back gives the model it was built from: each field is copied from the corresponding model field |
| `ModelListing.EntryModelSound` | main.py:54-59 | any value a client accepts as a record is the record of the model it reads |
| `ModelListing.ListModels` | main.py:52-60 | the response is an object with exactly `object` equal to `"list"` and `data`, a list as long as the upstream list whose element i is the record of upstream model i |
| `ModelListing.ModelListRoundTrip` | main.py:52-60 | a response of that shape reads back as the upstream model list itself, with the same length, order and fields |

## Left out

- HTTP routing, the request-body logging middleware, the streaming response
  object and its media type, and server startup are left out. They are
  framework plumbing.
- Environment configuration (`DEBUG`, `MISTRAL_API_KEY`, `PORT`) and the
  `print`-based logging are left out. They are process I/O.
- The upstream network calls (`client.models.list()` and
  `client.chat.completions.create`) are left out. Their results are inputs: a
  sequence of models and a sequence of chunks. Upstream and network failures
  are not modelled.
- `json.loads` is not modelled. Its outcome is an input, and parse failure is
  `None`.
- `model_dump_json` is not modelled. It is a function parameter of
  `ConvertStream`, and the framing round trip assumes, as a precondition, that
  its output has no newline.
- Asynchronous iteration, back-pressure and cancellation on client disconnect
  are left out. They are scheduling behaviour, and the stream is a finite
  sequence.
- Object key order in JSON output is not kept, because objects are maps.
- `temperature` and `top_p` are never interpreted. Non-integer numbers are kept
  as their literal text.
- StreamRelay.ConvertStream: models the streamed case only, where the body has
  `stream` set to true and upstream returns a chunk stream. With `stream`
  absent, false or null, upstream returns one completion object, and iterating
  over it aborts the response. That failure belongs to the foreign client and
  the web framework, so it is not modelled.
- Completions.ChatCompletions: in the code, `messages` is the same list object
  as the body's `messages` entry, so inserting also changes the parsed body.
  The model inserts into a `MessageList` made from that entry's items and does
  not model this aliasing. Nothing after the insert reads the body's
  `messages` again.
