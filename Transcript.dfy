/**
 * The chat transcript and how a streamed reply is folded into it: the reply's
 * placeholder message is found by id and its text replaced by everything
 * received so far (`prev.map(msg => msg.id === tempId ? {...msg, text} : msg)`).
 */
module Transcript {
  import Text

  datatype Role = User | Model

  /** A transcript entry; the timestamp is not part of this model. */
  datatype ChatMessage = ChatMessage(id: string, role: Role, text: string)

  /**
   * The fixed opening line a fresh chat starts with, exactly as the component
   * holds it: the Korean greeting "(눈을 마주치며) ...무슨 용건이지?" after its
   * UTF-8 bytes were read as Windows-1252 and the undefined byte 0x9D dropped.
   */
  const OpeningText: string := "(\U{00EB}\U{02C6}\U{02C6}\U{00EC}\U{201E} \U{00EB}\U{00A7}\U{02C6}\U{00EC}\U{00A3}\U{00BC}\U{00EC}\U{00B9}\U{02DC}\U{00EB}\U{00A9}\U{00B0}) ...\U{00EB}\U{00AC}\U{00B4}\U{00EC}\U{0160}\U{00A8} \U{00EC}\U{0161}\U{00A9}\U{00EA}\U{00B1}\U{00B4}\U{00EC}\U{00B4}\U{00EC}\U{00A7}\U{20AC}?"

  const OpeningLine: ChatMessage := ChatMessage("init", Model, OpeningText)

  /** Every message with the given id gets `text`; every other is kept as is. */
  function Patch(ms: seq<ChatMessage>, id: string, text: string): seq<ChatMessage> {
    seq(|ms|, k requires 0 <= k < |ms| => if ms[k].id == id then ms[k].(text := text) else ms[k])
  }

  /** A later patch of the same id overrides an earlier one. */
  lemma PatchTwice(ms: seq<ChatMessage>, id: string, a: string, b: string)
    ensures Patch(Patch(ms, id, a), id, b) == Patch(ms, id, b)
  {
  }

  /** The text received so far: the chunks joined in arrival order. */
  function Concat(chunks: seq<string>): string
    decreases |chunks|
  {
    if chunks == [] then [] else Concat(chunks[..|chunks| - 1]) + chunks[|chunks| - 1]
  }

  /** The chunks that pass the `if (chunk)` test. */
  function NonEmpty(chunks: seq<string>): seq<string>
    decreases |chunks|
  {
    if chunks == [] then []
    else if chunks[|chunks| - 1] == [] then NonEmpty(chunks[..|chunks| - 1])
    else NonEmpty(chunks[..|chunks| - 1]) + [chunks[|chunks| - 1]]
  }

  /** Skipping the empty chunks does not change the accumulated text. */
  lemma {:induction false} ConcatNonEmpty(chunks: seq<string>)
    ensures Concat(NonEmpty(chunks)) == Concat(chunks)
    ensures Concat(chunks) == [] <==> NonEmpty(chunks) == []
    decreases |chunks|
  {
    if chunks != [] {
      var init := chunks[..|chunks| - 1];
      var last := chunks[|chunks| - 1];
      ConcatNonEmpty(init);
      if last != [] {
        var ne := NonEmpty(init) + [last];
        assert ne[..|ne| - 1] == NonEmpty(init);
      }
    }
  }

  /**
   * The transcript after the chunks have been folded into the placeholder
   * `tempId`: untouched until the first non-empty chunk, then patched with
   * the text accumulated so far.
   */
  function Streamed(ms: seq<ChatMessage>, tempId: string, chunks: seq<string>): seq<ChatMessage> {
    if Concat(chunks) == [] then ms else Patch(ms, tempId, Concat(chunks))
  }

  /** One more chunk: the step the streaming loop takes. */
  lemma StreamedStep(ms: seq<ChatMessage>, tempId: string, chunks: seq<string>, chunk: string)
    ensures Concat(chunks + [chunk]) == Concat(chunks) + chunk
    ensures chunk == [] ==> Streamed(ms, tempId, chunks + [chunk]) == Streamed(ms, tempId, chunks)
    ensures chunk != [] ==>
              Streamed(ms, tempId, chunks + [chunk]) == Patch(Streamed(ms, tempId, chunks), tempId, Concat(chunks) + chunk)
  {
    assert (chunks + [chunk])[..|chunks|] == chunks;
    if chunk == [] {
      assert Concat(chunks) + chunk == Concat(chunks);
    } else if Concat(chunks) != [] {
      PatchTwice(ms, tempId, Concat(chunks), Concat(chunks) + chunk);
    }
  }

  /**
   * Streaming never adds or removes messages, leaves every message with
   * another id as it was, and gives each message with id `tempId` the
   * concatenation of the chunks, or its old text when every chunk was empty.
   */
  lemma StreamedEffect(ms: seq<ChatMessage>, tempId: string, chunks: seq<string>)
    ensures |Streamed(ms, tempId, chunks)| == |ms|
    ensures forall k :: 0 <= k < |ms| && ms[k].id != tempId ==> Streamed(ms, tempId, chunks)[k] == ms[k]
    ensures forall k :: 0 <= k < |ms| && ms[k].id == tempId ==>
              Streamed(ms, tempId, chunks)[k] == ms[k].(text := if Concat(chunks) == [] then ms[k].text else Concat(chunks))
  {
  }

  predicate FreshId(ms: seq<ChatMessage>, id: string) {
    forall k :: 0 <= k < |ms| ==> ms[k].id != id
  }

  /**
   * The transcript a send produces: the user's message (its text as typed,
   * untrimmed), then an empty model placeholder, then the streamed chunks
   * folded into the placeholder.
   */
  function AfterSend(ms: seq<ChatMessage>, userId: string, tempId: string, input: string,
                     chunks: seq<string>): seq<ChatMessage>
  {
    Streamed(ms + [ChatMessage(userId, User, input), ChatMessage(tempId, Model, [])], tempId, chunks)
  }

  /**
   * With a placeholder id used by no other message, a send appends exactly
   * two messages and changes nothing before them: the user's message with
   * the untrimmed input, and a model message whose text is the in-order
   * concatenation of the non-empty chunks.
   */
  lemma AfterSendShape(ms: seq<ChatMessage>, userId: string, tempId: string, input: string,
                       chunks: seq<string>)
    requires FreshId(ms, tempId) && userId != tempId
    ensures var r := AfterSend(ms, userId, tempId, input, chunks);
            && |r| == |ms| + 2
            && r[..|ms|] == ms
            && r[|ms|] == ChatMessage(userId, User, input)
            && r[|ms| + 1] == ChatMessage(tempId, Model, Concat(NonEmpty(chunks)))
  {
    var appended := ms + [ChatMessage(userId, User, input), ChatMessage(tempId, Model, [])];
    StreamedEffect(appended, tempId, chunks);
    ConcatNonEmpty(chunks);
    var r := AfterSend(ms, userId, tempId, input, chunks);
    assert forall k :: 0 <= k < |ms| ==> r[k] == appended[k] == ms[k];
  }

  /**
   * When the placeholder id is also the id of the user's message, the fold
   * overwrites the user's message as well: the lookup is by id only.
   */
  lemma AfterSendSharedId(ms: seq<ChatMessage>, id: string, input: string, chunks: seq<string>)
    requires Concat(chunks) != []
    ensures AfterSend(ms, id, id, input, chunks)[|ms|] == ChatMessage(id, User, Concat(chunks))
  {
  }
}
