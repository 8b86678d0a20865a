/**
 * The chat screen's message assembler (components/ChatView.tsx): a submission appends the
 * user's message and an empty, streaming model message, folds the fragments of the reply
 * stream into that one message (found by its id), and finally marks it as no longer streaming,
 * replacing its text with a fixed notice if the stream failed.
 */
module ChatView {
  import opened Wrappers
  import opened Types
  import opened JsSemantics
  import opened GeminiService

  /** The text a model message gets when its stream fails. */
  const ERROR_NOTICE := "An error occurred. Please try again."

  /**
   * The reply stream as the assembler sees it: the chunks' `text` fields in arrival order
   * (absent when a chunk has none), then either a normal end or, when `fails`, an exception.
   * A failure before any chunk, including one of the request itself, has no chunks.
   */
  datatype FragmentStream = FragmentStream(chunks: seq<Option<string>>, fails: bool)

  /** A chunk's text, read as empty when absent. */
  function Fragment(chunk: Option<string>): string {
    if chunk.Some? then chunk.value else ""
  }

  /** The accumulator `text` after the given chunks: their texts appended in arrival order. */
  function Accumulate(chunks: seq<Option<string>>): (text: string)
    ensures chunks == [] ==> text == ""
    ensures chunks != [] ==> |Fragment(chunks[|chunks| - 1])| <= |text|
  {
    if chunks == [] then ""
    else Accumulate(chunks[..|chunks| - 1]) + Fragment(chunks[|chunks| - 1])
  }

  /** The non-empty chunk texts, in arrival order. */
  function Present(chunks: seq<Option<string>>): (r: seq<string>)
    ensures |r| <= |chunks|
    ensures forall k :: 0 <= k < |r| ==> r[k] != ""
  {
    if chunks == [] then []
    else
      var last := Fragment(chunks[|chunks| - 1]);
      Present(chunks[..|chunks| - 1]) + (if last != "" then [last] else [])
  }

  /** The concatenation of a list of strings, left to right. */
  function Concat(ss: seq<string>): string {
    if ss == [] then "" else Concat(ss[..|ss| - 1]) + ss[|ss| - 1]
  }

  /**
   * The texts published on the model message while streaming: one per chunk with non-empty
   * text, namely the accumulator right after that chunk.
   */
  function Snapshots(chunks: seq<Option<string>>): (ts: seq<string>)
    ensures |ts| <= |chunks|
    ensures chunks != [] && Fragment(chunks[|chunks| - 1]) != "" ==> ts != [] && ts[|ts| - 1] == Accumulate(chunks)
  {
    if chunks == [] then []
    else
      Snapshots(chunks[..|chunks| - 1])
      + (if Fragment(chunks[|chunks| - 1]) != "" then [Accumulate(chunks)] else [])
  }

  /** Skipping empty and missing fragments loses nothing: the accumulator is the concatenation of the non-empty ones. */
  lemma {:induction false} AccumulateIsConcat(chunks: seq<Option<string>>)
    ensures Accumulate(chunks) == Concat(Present(chunks))
  {
    if chunks != [] {
      var init := chunks[..|chunks| - 1];
      var last := Fragment(chunks[|chunks| - 1]);
      AccumulateIsConcat(init);
      var ps := Present(init);
      assert Accumulate(chunks) == Accumulate(init) + last;
      if last != "" {
        assert Present(chunks) == ps + [last];
        assert (ps + [last])[..|ps|] == ps;
        assert Concat(ps + [last]) == Concat(ps) + last;
      } else {
        assert Present(chunks) == ps;
      }
    }
  }

  /** The k-th published text is the concatenation of the first k+1 non-empty fragments. */
  lemma {:induction false} SnapshotAt(chunks: seq<Option<string>>, k: nat)
    requires k < |Snapshots(chunks)|
    ensures |Snapshots(chunks)| == |Present(chunks)|
    ensures Snapshots(chunks)[k] == Concat(Present(chunks)[..k + 1])
  {
    var init := chunks[..|chunks| - 1];
    var last := Fragment(chunks[|chunks| - 1]);
    var ss, ps := Snapshots(init), Present(init);
    if last == "" {
      assert Snapshots(chunks) == ss && Present(chunks) == ps;
      SnapshotAt(init, k);
    } else {
      assert Snapshots(chunks) == ss + [Accumulate(chunks)];
      assert Present(chunks) == ps + [last];
      if k < |ss| {
        SnapshotAt(init, k);
        assert Present(chunks)[..k + 1] == ps[..k + 1];
      } else {
        SnapshotCountIsPresent(init);
        AccumulateIsConcat(chunks);
        assert Present(chunks)[..k + 1] == Present(chunks);
      }
    }
  }

  /** As many texts are published as there are non-empty fragments. */
  lemma {:induction false} SnapshotCountIsPresent(chunks: seq<Option<string>>)
    ensures |Snapshots(chunks)| == |Present(chunks)|
  {
    if chunks != [] {
      SnapshotCountIsPresent(chunks[..|chunks| - 1]);
    }
  }

  /**
   * While streaming the text only grows: each published text is a proper prefix of every
   * later one, and every published text is a prefix of the accumulator.
   */
  lemma {:induction false} SnapshotsGrow(chunks: seq<Option<string>>)
    ensures forall i, j :: 0 <= i < j < |Snapshots(chunks)| ==>
      |Snapshots(chunks)[i]| < |Snapshots(chunks)[j]| &&
      Snapshots(chunks)[i] == Snapshots(chunks)[j][..|Snapshots(chunks)[i]|]
    ensures forall i :: 0 <= i < |Snapshots(chunks)| ==>
      |Snapshots(chunks)[i]| <= |Accumulate(chunks)| &&
      Snapshots(chunks)[i] == Accumulate(chunks)[..|Snapshots(chunks)[i]|]
  {
    if chunks != [] {
      var init := chunks[..|chunks| - 1];
      var last := Fragment(chunks[|chunks| - 1]);
      SnapshotsGrow(init);
      var ss := Snapshots(init);
      var prev := Accumulate(init);
      var whole := Accumulate(chunks);
      assert whole == prev + last;
      assert whole[..|prev|] == prev;
      if last != "" {
        var ts := ss + [whole];
        assert Snapshots(chunks) == ts;
        forall i | 0 <= i < |ss|
          ensures |ts[i]| < |whole| && ts[i] == whole[..|ts[i]|]
        {
          assert ts[i] == ss[i] == prev[..|ss[i]|];
          assert whole[..|ss[i]|] == prev[..|ss[i]|];
        }
      } else {
        assert Snapshots(chunks) == ss;
        assert whole == prev;
      }
    }
  }

  /**
   * When any text was published, the last published text is the whole accumulator;
   * otherwise the accumulator is empty.
   */
  lemma {:induction false} SnapshotsEnd(chunks: seq<Option<string>>)
    ensures Snapshots(chunks) == [] ==> Accumulate(chunks) == ""
    ensures Snapshots(chunks) != [] ==> Snapshots(chunks)[|Snapshots(chunks)| - 1] == Accumulate(chunks)
  {
    if chunks != [] {
      var init := chunks[..|chunks| - 1];
      SnapshotsEnd(init);
      if Fragment(chunks[|chunks| - 1]) == "" && Snapshots(init) != [] {
        SnapshotsGrow(chunks);
      }
    }
  }

  /** One state update applied to the model message. */
  datatype Patch =
    | SetText(text: string)  // a fragment arrived: `{ ...msg, text, isStreaming: true }`
    | SetError               // the stream threw: the error notice, not streaming
    | EndStream              // finally: `{ ...msg, isStreaming: false }`

  /** A patch applied to one message; only its text and streaming flag can change. */
  function Apply(p: Patch, m: ChatMessage): (r: ChatMessage)
    ensures r.id == m.id && r.role == m.role && r.image == m.image && r.groundingSources == m.groundingSources
    ensures p.SetText? ==> r.text == p.text && r.isStreaming == Some(true)
    ensures p.SetError? ==> r.text == ERROR_NOTICE && r.isStreaming == Some(false)
    ensures p.EndStream? ==> r.text == m.text && r.isStreaming == Some(false)
  {
    match p
    case SetText(t) => m.(text := t, isStreaming := Some(true))
    case SetError => m.(text := ERROR_NOTICE, isStreaming := Some(false))
    case EndStream => m.(isStreaming := Some(false))
  }

  /** A list of patches applied to one message, first to last. */
  function ApplyAll(ps: seq<Patch>, m: ChatMessage): (r: ChatMessage)
    ensures r.id == m.id && r.role == m.role && r.image == m.image && r.groundingSources == m.groundingSources
  {
    if ps == [] then m else Apply(ps[|ps| - 1], ApplyAll(ps[..|ps| - 1], m))
  }

  /**
   * `prev.map(msg => msg.id === id ? patched : msg)`: every message carrying `id` is patched,
   * every other message and the length are left alone.
   */
  function UpdateById(msgs: seq<ChatMessage>, id: string, p: Patch): (r: seq<ChatMessage>)
    ensures |r| == |msgs|
  {
    if msgs == [] then []
    else [if msgs[0].id == id then Apply(p, msgs[0]) else msgs[0]] + UpdateById(msgs[1..], id, p)
  }

  /** An update-by-id pass patches exactly the messages carrying `id`, each where it stands. */
  lemma {:induction false} UpdateByIdAt(msgs: seq<ChatMessage>, id: string, p: Patch)
    ensures forall k :: 0 <= k < |msgs| ==>
      UpdateById(msgs, id, p)[k] == if msgs[k].id == id then Apply(p, msgs[k]) else msgs[k]
  {
    if msgs != [] {
      UpdateByIdAt(msgs[1..], id, p);
    }
  }

  /** Successive update-by-id passes, one per patch. */
  function ApplyById(msgs: seq<ChatMessage>, id: string, ps: seq<Patch>): (r: seq<ChatMessage>)
    ensures |r| == |msgs|
  {
    if ps == [] then msgs else UpdateById(ApplyById(msgs, id, ps[..|ps| - 1]), id, ps[|ps| - 1])
  }

  /** Each message carrying `id` gets all the patches in order, every other message none. */
  lemma {:induction false} ApplyByIdAt(msgs: seq<ChatMessage>, id: string, ps: seq<Patch>)
    ensures forall k :: 0 <= k < |msgs| ==>
      ApplyById(msgs, id, ps)[k] == if msgs[k].id == id then ApplyAll(ps, msgs[k]) else msgs[k]
  {
    if ps != [] {
      ApplyByIdAt(msgs, id, ps[..|ps| - 1]);
      UpdateByIdAt(ApplyById(msgs, id, ps[..|ps| - 1]), id, ps[|ps| - 1]);
    }
  }

  /** One more patch is one more update-by-id pass over the result. */
  lemma ApplyByIdSnoc(msgs: seq<ChatMessage>, id: string, ps: seq<Patch>, p: Patch)
    ensures ApplyById(msgs, id, ps + [p]) == UpdateById(ApplyById(msgs, id, ps), id, p)
  {
    assert (ps + [p])[..|ps|] == ps;
  }

  /** One SetText patch per published text, in order. */
  function TextPatches(ts: seq<string>): (ps: seq<Patch>)
    ensures |ps| == |ts|
    ensures forall k :: 0 <= k < |ts| ==> ps[k] == SetText(ts[k])
  {
    if ts == [] then [] else TextPatches(ts[..|ts| - 1]) + [SetText(ts[|ts| - 1])]
  }

  /** The updates a submission makes to its model message, in the order the code makes them. */
  function StreamPatches(s: FragmentStream): (ps: seq<Patch>)
    ensures |ps| == |Snapshots(s.chunks)| + (if s.fails then 2 else 1)
    ensures ps[|ps| - 1] == EndStream
    ensures s.fails ==> ps[|ps| - 2] == SetError
  {
    TextPatches(Snapshots(s.chunks)) + (if s.fails then [SetError] else []) + [EndStream]
  }

  /** The user's message: the input text and the preview (an empty preview counts as none). */
  function UserMessage(id: string, input: string, preview: Option<string>): (m: ChatMessage)
    ensures m.id == id && m.role == User && m.text == input
    ensures m.image.Some? <==> Truthy(preview)
    ensures m.image.Some? ==> m.image == preview
    ensures m.isStreaming.None? && m.groundingSources.None?
  {
    ChatMessage(id, User, input, if Truthy(preview) then preview else None, None, None)
  }

  /** The model message as first appended: empty and streaming. */
  function Placeholder(id: string): (m: ChatMessage)
    ensures m.id == id && m.role == Model && m.text == "" && m.isStreaming == Some(true)
    ensures m.image.None? && m.groundingSources.None?
  {
    ChatMessage(id, Model, "", None, Some(true), None)
  }

  /** The conversation after a non-empty submission has run to its end. */
  function Submitted(msgs: seq<ChatMessage>, user: ChatMessage, modelId: string, s: FragmentStream): (r: seq<ChatMessage>)
    ensures |r| == |msgs| + 2
  {
    ApplyById(msgs + [user, Placeholder(modelId)], modelId, StreamPatches(s))
  }

  /**
   * What a message carrying the model message's id ends up as, stated directly: the error
   * notice if the stream failed, else the accumulated text if any was published, else its own
   * text; and no longer streaming.
   */
  function Settled(m: ChatMessage, s: FragmentStream): ChatMessage {
    m.(text := if s.fails then ERROR_NOTICE
               else if Snapshots(s.chunks) == [] then m.text
               else Accumulate(s.chunks),
       isStreaming := Some(false))
  }

  /** The final text of the model message: the notice on failure, else every fragment in order. */
  function FinalText(s: FragmentStream): string {
    if s.fails then ERROR_NOTICE else Accumulate(s.chunks)
  }

  /** After a run of text patches a message shows the last text and is streaming. */
  lemma {:induction false} ApplyTextPatches(ts: seq<string>, m: ChatMessage)
    ensures ApplyAll(TextPatches(ts), m)
         == if ts == [] then m else m.(text := ts[|ts| - 1], isStreaming := Some(true))
  {
    if ts != [] {
      var init := ts[..|ts| - 1];
      ApplyTextPatches(init, m);
      var ps := TextPatches(ts);
      assert ps[..|ps| - 1] == TextPatches(init);
    }
  }

  /** The patches of a submission settle a message exactly as Settled says. */
  lemma StreamSettles(m: ChatMessage, s: FragmentStream)
    ensures ApplyAll(StreamPatches(s), m) == Settled(m, s)
  {
    var texts := TextPatches(Snapshots(s.chunks));
    var tail := if s.fails then [SetError] else [];
    var ps := texts + tail + [EndStream];
    assert ps[..|ps| - 1] == texts + tail;
    if s.fails {
      assert (texts + tail)[..|texts|] == texts;
    } else {
      assert texts + tail == texts;
    }
    ApplyTextPatches(Snapshots(s.chunks), m);
    SnapshotsEnd(s.chunks);
  }

  /**
   * A submission appends exactly two messages, the user's and then the model's, and the model
   * message ends with the final text and not streaming; an earlier message changes only if it
   * carries the model message's id.
   */
  lemma SubmitOutcome(msgs: seq<ChatMessage>, user: ChatMessage, modelId: string, s: FragmentStream)
    requires user.id != modelId
    ensures |Submitted(msgs, user, modelId, s)| == |msgs| + 2
    ensures Submitted(msgs, user, modelId, s)[|msgs|] == user
    ensures Submitted(msgs, user, modelId, s)[|msgs| + 1]
         == ChatMessage(modelId, Model, FinalText(s), None, Some(false), None)
    ensures forall k :: 0 <= k < |msgs| ==>
      Submitted(msgs, user, modelId, s)[k] == if msgs[k].id == modelId then Settled(msgs[k], s) else msgs[k]
  {
    var base := msgs + [user, Placeholder(modelId)];
    assert base[|msgs|] == user && base[|msgs| + 1] == Placeholder(modelId);
    ApplyByIdAt(base, modelId, StreamPatches(s));
    StreamSettles(Placeholder(modelId), s);
    SnapshotsEnd(s.chunks);
    forall k | 0 <= k < |msgs| && msgs[k].id == modelId
      ensures Submitted(msgs, user, modelId, s)[k] == Settled(msgs[k], s)
    {
      assert base[k] == msgs[k];
      StreamSettles(msgs[k], s);
    }
  }

  /** When the model message's id is new to the conversation, every earlier message is kept as it was. */
  lemma FreshIdKeepsHistory(msgs: seq<ChatMessage>, user: ChatMessage, modelId: string, s: FragmentStream)
    requires user.id != modelId
    requires forall k :: 0 <= k < |msgs| ==> msgs[k].id != modelId
    ensures Submitted(msgs, user, modelId, s)[..|msgs|] == msgs
  {
    SubmitOutcome(msgs, user, modelId, s);
  }

  /** No message of the conversation is marked as streaming. */
  predicate NoneStreaming(msgs: seq<ChatMessage>) {
    forall k :: 0 <= k < |msgs| ==> msgs[k].isStreaming != Some(true)
  }

  /** Once a submission has run to its end, no message is left marked as streaming. */
  lemma SubmitLeavesNoneStreaming(msgs: seq<ChatMessage>, user: ChatMessage, modelId: string, s: FragmentStream)
    requires user.id != modelId && user.isStreaming != Some(true)
    requires NoneStreaming(msgs)
    ensures NoneStreaming(Submitted(msgs, user, modelId, s))
  {
    var base := msgs + [user, Placeholder(modelId)];
    var r := Submitted(msgs, user, modelId, s);
    ApplyByIdAt(base, modelId, StreamPatches(s));
    forall k | 0 <= k < |r| ensures r[k].isStreaming != Some(true) {
      if base[k].id == modelId {
        StreamSettles(base[k], s);
      } else if k < |msgs| {
        assert base[k] == msgs[k];
      }
    }
  }

  /** The facts about a finished submission that the chat screen keeps between submissions. */
  lemma SubmitShape(msgs: seq<ChatMessage>, user: ChatMessage, modelId: string, s: FragmentStream)
    requires user.id != modelId && user.isStreaming != Some(true)
    requires NoneStreaming(msgs)
    ensures |Submitted(msgs, user, modelId, s)| == |msgs| + 2
    ensures Submitted(msgs, user, modelId, s)[|msgs|] == user
    ensures Submitted(msgs, user, modelId, s)[|msgs| + 1]
         == ChatMessage(modelId, Model, FinalText(s), None, Some(false), None)
    ensures NoneStreaming(Submitted(msgs, user, modelId, s))
  {
    SubmitOutcome(msgs, user, modelId, s);
    SubmitLeavesNoneStreaming(msgs, user, modelId, s);
  }

  class ChatView {
    var messages: seq<ChatMessage>
    var input: string
    var imageFile: Option<ImageFile>
    var imagePreview: Option<string>
    var isLoading: bool
    var chatMode: ChatMode

    /** Between submissions nothing is loading and no message is streaming. */
    ghost predicate Valid()
      reads this
    {
      !isLoading && NoneStreaming(messages)
    }

    /** An empty conversation in the pro mode. */
    constructor ()
      ensures Valid()
      ensures messages == [] && input == "" && imageFile == None && imagePreview == None
      ensures !isLoading && chatMode == Pro
    {
      messages := [];
      input := "";
      imageFile := None;
      imagePreview := None;
      isLoading := false;
      chatMode := Pro;
    }

    /**
     * `handleImageChange`: when a file was picked, it is attached, with `previewUrl` (the object
     * URL made for it) as its preview; an empty selection changes nothing.
     */
    method AttachImage(files: seq<ImageFile>, previewUrl: string)
      modifies this
      ensures files == [] ==> unchanged(this)
      ensures files != [] ==> imageFile == Some(files[0]) && imagePreview == Some(previewUrl)
      ensures messages == old(messages) && input == old(input)
      ensures isLoading == old(isLoading) && chatMode == old(chatMode)
    {
      if files != [] {
        imageFile := Some(files[0]);
        imagePreview := Some(previewUrl);
      }
    }

    /**
     * The `for await` loop of `handleSendMessage`: every chunk with non-empty text is appended
     * to the accumulator, and the accumulator is published on the messages carrying `modelId`
     * (still streaming); `published` lists the texts published, in order.
     */
    method Consume(modelId: string, chunks: seq<Option<string>>) returns (ghost published: seq<string>)
      modifies this`messages
      ensures published == Snapshots(chunks)
      ensures messages == ApplyById(old(messages), modelId, TextPatches(published))
      ensures unchanged(this`input, this`imageFile, this`imagePreview, this`isLoading, this`chatMode)
    {
      var text := "";
      published := [];
      ghost var patches: seq<Patch> := [];
      var i := 0;
      while i < |chunks|
        invariant 0 <= i <= |chunks|
        invariant text == Accumulate(chunks[..i])
        invariant published == Snapshots(chunks[..i])
        invariant patches == TextPatches(published)
        invariant messages == ApplyById(old(messages), modelId, patches)
      {
        var chunk := chunks[i];
        assert chunks[..i + 1][..i] == chunks[..i];
        if Truthy(chunk) {
          text := text + chunk.value;
          messages := UpdateById(messages, modelId, SetText(text));
          published := published + [text];
          ApplyByIdSnoc(old(messages), modelId, patches, SetText(text));
          patches := patches + [SetText(text)];
        }
        i := i + 1;
      }
      assert chunks[..i] == chunks;
    }

    /**
     * The catch and finally blocks of `handleSendMessage`: on failure the messages carrying
     * `modelId` get the error notice; then loading ends and they stop streaming. `base` and
     * `done` say how the conversation came about, so that the result can be stated as the
     * same patches followed by these last ones.
     */
    method Finalise(modelId: string, failed: bool, ghost base: seq<ChatMessage>, ghost done: seq<Patch>)
      requires messages == ApplyById(base, modelId, done)
      modifies this`messages, this`isLoading
      ensures !isLoading
      ensures messages == ApplyById(base, modelId, done + (if failed then [SetError] else []) + [EndStream])
      ensures unchanged(this`input, this`imageFile, this`imagePreview, this`chatMode)
    {
      ghost var ps := done;
      if failed {
        messages := UpdateById(messages, modelId, SetError);
        ApplyByIdSnoc(base, modelId, ps, SetError);
        ps := ps + [SetError];
      }
      assert ps == done + (if failed then [SetError] else []);
      isLoading := false;
      messages := UpdateById(messages, modelId, EndStream);
      ApplyByIdSnoc(base, modelId, ps, EndStream);
    }

    /**
     * The part of `handleSendMessage` before the reply arrives: loading starts, the user's
     * message and the streaming placeholder are appended, the form is cleared, and the request
     * is made from the input, image and mode as they were.
     */
    method Open(userId: string, modelId: string) returns (userMessage: ChatMessage, request: Option<ChatRequest>)
      modifies this
      ensures userMessage == UserMessage(userId, old(input), old(imagePreview))
      ensures request == Some(ChatRequestFor(old(input), old(imageFile), old(chatMode)))
      ensures messages == old(messages) + [userMessage, Placeholder(modelId)]
      ensures isLoading && input == "" && imageFile == None && imagePreview == None && chatMode == old(chatMode)
    {
      isLoading := true;
      userMessage := UserMessage(userId, input, imagePreview);
      messages := messages + [userMessage];

      var currentInput := input;
      var currentImageFile := imageFile;
      input := "";
      imageFile := None;
      imagePreview := None;

      messages := messages + [Placeholder(modelId)];
      request := Some(ChatRequestFor(currentInput, currentImageFile, chatMode));
    }

    /**
     * `handleSendMessage` past its guard: the submission is opened, the reply stream consumed
     * and the model message settled, so that the conversation becomes `Submitted(...)` and
     * nothing is left loading or streaming.
     */
    method Run(userId: string, modelId: string, stream: FragmentStream)
      returns (request: Option<ChatRequest>, ghost published: seq<string>)
      requires userId != modelId
      requires Valid()
      modifies this
      ensures Valid()
      ensures request == Some(ChatRequestFor(old(input), old(imageFile), old(chatMode)))
      ensures messages == Submitted(old(messages), UserMessage(userId, old(input), old(imagePreview)), modelId, stream)
      ensures published == Snapshots(stream.chunks)
      ensures input == "" && imageFile == None && imagePreview == None && chatMode == old(chatMode)
      ensures |messages| == |old(messages)| + 2
      ensures messages[|old(messages)|] == UserMessage(userId, old(input), old(imagePreview))
      ensures messages[|old(messages)| + 1] == ChatMessage(modelId, Model, FinalText(stream), None, Some(false), None)
    {
      ghost var history := messages;
      var userMessage;
      userMessage, request := Open(userId, modelId);
      ghost var base := messages;
      published := Consume(modelId, stream.chunks);
      Finalise(modelId, stream.fails, base, TextPatches(published));
      SubmitShape(history, userMessage, modelId, stream);
    }

    /**
     * `handleSendMessage`, with the two message ids as parameters and the reply stream as input.
     * A blank input without an image changes nothing and makes no request. Otherwise the
     * submission runs to its end as `Run` says.
     */
    method SendMessage(userId: string, modelId: string, stream: FragmentStream)
      returns (request: Option<ChatRequest>, ghost published: seq<string>)
      requires userId != modelId
      requires Valid()
      modifies this
      ensures Valid()
      ensures IsBlank(old(input)) && old(imageFile).None? ==> request == None && published == [] && unchanged(this)
      ensures !IsBlank(old(input)) || old(imageFile).Some? ==>
        && request == Some(ChatRequestFor(old(input), old(imageFile), old(chatMode)))
        && messages == Submitted(old(messages), UserMessage(userId, old(input), old(imagePreview)), modelId, stream)
        && published == Snapshots(stream.chunks)
        && input == "" && imageFile == None && imagePreview == None && chatMode == old(chatMode)
    {
      var blank := TrimsToEmpty(input);
      if blank && imageFile.None? {
        return None, [];
      }
      request, published := Run(userId, modelId, stream);
    }
  }
}
