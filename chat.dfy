/**
 * The support chat: the message log, how one exchange with the assistant
 * changes it (the user's message and an empty placeholder appended
 * together, the placeholder's text rewritten as each streamed chunk
 * arrives, an apology in its place when the stream fails), and the
 * widget's guard on what it sends.
 */
module Chat {
  import opened Js

  datatype Sender = User | Ai

  datatype ChatMessage = ChatMessage(id: int, text: string, sender: Sender, error: bool)

  /** The log a session starts with. */
  const Greeting := ChatMessage(1, "Hello! How can I help you with our services or products today?", Ai, false)

  const Apology := "Sorry, I encountered an error. Please try again."

  const Unavailable := "Sorry, the chat service is currently unavailable."

  /** One streamed chunk; its `text` may be missing. */
  datatype Chunk = Chunk(text: Option<string>)

  /**
   * What an exchange delivers: the chunks that arrived, in order, and
   * whether it ended with an error (a failure to open the stream is an
   * error after no chunks).
   */
  datatype Stream = Stream(chunks: seq<Chunk>, failed: bool)

  /** `prev.map(msg => msg.id === id ? {...msg, text} : msg)`. */
  function WithText(log: seq<ChatMessage>, id: int, text: string): (r: seq<ChatMessage>)
    ensures |r| == |log|
    ensures forall i :: 0 <= i < |log| ==> r[i] == if log[i].id == id then log[i].(text := text) else log[i]
  {
    seq(|log|, i requires 0 <= i < |log| => if log[i].id == id then log[i].(text := text) else log[i])
  }

  /** The error branch's map: the message with that id becomes the apology, flagged as an error. */
  function WithApology(log: seq<ChatMessage>, id: int): (r: seq<ChatMessage>)
    ensures |r| == |log|
    ensures forall i :: 0 <= i < |log| ==>
              r[i] == if log[i].id == id then log[i].(text := Apology, error := true) else log[i]
  {
    seq(|log|, i requires 0 <= i < |log| => if log[i].id == id then log[i].(text := Apology, error := true) else log[i])
  }

  /** Each rewrite replaces the previous one: only the last text written stays. */
  lemma WithTextOverwrites(log: seq<ChatMessage>, id: int, a: string, b: string)
    ensures WithText(WithText(log, id, a), id, b) == WithText(log, id, b)
  {
  }

  /** Rewriting a message with an id that is not in the log changes nothing. */
  lemma WithTextAbsent(log: seq<ChatMessage>, id: int, text: string)
    requires forall i :: 0 <= i < |log| ==> log[i].id != id
    ensures WithText(log, id, text) == log
    ensures WithApology(log, id) == log
  {
  }

  /** What `responseText += chunk.text` appends as written: JavaScript turns a missing text into "undefined". */
  function ChunkTextAsWritten(c: Chunk): (r: string)
    ensures r == ChunkText(c) <==> c.text.Some?
  {
    if c.text.Some? then c.text.value else "undefined"
  }

  /** The number of chunks that carry no text. */
  function Missing(chunks: seq<Chunk>): nat {
    if chunks == [] then 0 else Missing(chunks[..|chunks| - 1]) + (if chunks[|chunks| - 1].text.None? then 1 else 0)
  }

  /**
   * The text of the reply after a sequence of chunks, as written: nine
   * characters longer than the intended reply for every chunk without text,
   * and equal to it exactly when there is no such chunk.
   */
  function ReplyTextAsWritten(chunks: seq<Chunk>): (r: string)
    ensures |r| == |ReplyText(chunks)| + 9 * Missing(chunks)
    ensures r == ReplyText(chunks) <==> Missing(chunks) == 0
  {
    if chunks == [] then "" else ReplyTextAsWritten(chunks[..|chunks| - 1]) + ChunkTextAsWritten(chunks[|chunks| - 1])
  }

  /** A chunk without text puts the word "undefined" into the reply shown to the user. */
  lemma MissingChunkTextShowsUndefined()
    ensures ReplyTextAsWritten([Chunk(Some("Hello")), Chunk(None)]) == "Helloundefined"
  {
    assert [Chunk(Some("Hello")), Chunk(None)][..1] == [Chunk(Some("Hello"))];
  }

  /** What a chunk is meant to contribute: its text, or nothing when it carries none. */
  function ChunkText(c: Chunk): string {
    if c.text.Some? then c.text.value else ""
  }

  /** The reply text after a sequence of chunks: their texts joined in arrival order. */
  function ReplyText(chunks: seq<Chunk>): string {
    if chunks == [] then "" else ReplyText(chunks[..|chunks| - 1]) + ChunkText(chunks[|chunks| - 1])
  }

  /** The texts the chunks carry, taken front to back. */
  function CarriedText(chunks: seq<Chunk>): string {
    if chunks == [] then "" else ChunkText(chunks[0]) + CarriedText(chunks[1..])
  }

  /** The reply accumulated chunk by chunk is exactly the text the chunks carry, in order. */
  lemma {:induction false} ReplyTextIsCarriedText(chunks: seq<Chunk>)
    ensures ReplyText(chunks) == CarriedText(chunks)
  {
    if chunks != [] {
      var init := chunks[..|chunks| - 1];
      ReplyTextIsCarriedText(init);
      CarriedTextAppend(init, chunks[|chunks| - 1]);
      assert init + [chunks[|chunks| - 1]] == chunks;
    }
  }

  lemma {:induction false} CarriedTextAppend(chunks: seq<Chunk>, c: Chunk)
    ensures CarriedText(chunks + [c]) == CarriedText(chunks) + ChunkText(c)
  {
    if chunks != [] {
      CarriedTextAppend(chunks[1..], c);
      assert (chunks + [c])[1..] == chunks[1..] + [c];
    }
  }

  /** Chunks that all carry text give the same reply as the code as written. */
  lemma {:induction false} CorrectionAgreesOnTextChunks(chunks: seq<Chunk>)
    requires forall i :: 0 <= i < |chunks| ==> chunks[i].text.Some?
    ensures ReplyText(chunks) == ReplyTextAsWritten(chunks)
  {
    if chunks != [] {
      CorrectionAgreesOnTextChunks(chunks[..|chunks| - 1]);
    }
  }

  /** The log when an exchange starts: the user's message and an empty assistant placeholder. */
  function Started(log: seq<ChatMessage>, text: string, userId: int, aiId: int): (r: seq<ChatMessage>)
    ensures |r| == |log| + 2 && r[..|log|] == log
    ensures r[|log|].id == userId && r[|log|].text == text && r[|log|].sender == User && !r[|log|].error
    ensures r[|log| + 1].id == aiId && r[|log| + 1].text == "" && r[|log| + 1].sender == Ai && !r[|log| + 1].error
  {
    log + [ChatMessage(userId, text, User, false), ChatMessage(aiId, "", Ai, false)]
  }

  /**
   * The log after the first `k` chunks: the placeholder has been rewritten
   * once per chunk, so it holds the reply so far and every other message
   * is untouched.
   */
  function Streamed(started: seq<ChatMessage>, aiId: int, chunks: seq<Chunk>): (r: seq<ChatMessage>)
    ensures |r| == |started|
    ensures forall i :: 0 <= i < |started| && started[i].id != aiId ==> r[i] == started[i]
    ensures chunks != [] ==> forall i :: 0 <= i < |started| && started[i].id == aiId ==> r[i] == started[i].(text := ReplyText(chunks))
  {
    if chunks == [] then started else WithText(started, aiId, ReplyText(chunks))
  }

  /**
   * The log at the end of an exchange: two messages longer; the earlier
   * messages other than one sharing the placeholder's id are kept; the
   * placeholder holds the apology, flagged as an error, when the stream failed.
   */
  function AfterExchange(log: seq<ChatMessage>, text: string, userId: int, aiId: int, stream: Stream): (r: seq<ChatMessage>)
    ensures |r| == |log| + 2
    ensures forall i :: 0 <= i < |log| && log[i].id != aiId ==> r[i] == log[i]
    ensures userId != aiId ==> r[|log|] == ChatMessage(userId, text, User, false)
    ensures r[|log| + 1].id == aiId && r[|log| + 1].sender == Ai
    ensures stream.failed ==> r[|log| + 1].text == Apology && r[|log| + 1].error
    ensures !stream.failed ==> r[|log| + 1].text == ReplyText(stream.chunks) && !r[|log| + 1].error
  {
    var streamed := Streamed(Started(log, text, userId, aiId), aiId, stream.chunks);
    if stream.failed then WithApology(streamed, aiId) else streamed
  }

  /** The ids `Date.now()` hands out are new: no message in the log has either, and they differ. */
  predicate FreshIds(log: seq<ChatMessage>, userId: int, aiId: int) {
    userId != aiId && forall i :: 0 <= i < |log| ==> log[i].id != aiId
  }

  /**
   * With fresh ids, after any number of chunks the log is the old log, the
   * user's message, and the placeholder whose text is the chunks' texts so
   * far; nothing else in the log changes and its length stays the same.
   */
  lemma StreamedTouchesOnlyPlaceholder(log: seq<ChatMessage>, text: string, userId: int, aiId: int, chunks: seq<Chunk>)
    requires FreshIds(log, userId, aiId)
    ensures Streamed(Started(log, text, userId, aiId), aiId, chunks)
            == log + [ChatMessage(userId, text, User, false), ChatMessage(aiId, ReplyText(chunks), Ai, false)]
  {
    var started := Started(log, text, userId, aiId);
    var expected := log + [ChatMessage(userId, text, User, false), ChatMessage(aiId, ReplyText(chunks), Ai, false)];
    if chunks != [] {
      var r := WithText(started, aiId, ReplyText(chunks));
      assert |r| == |expected|;
      forall i | 0 <= i < |r| ensures r[i] == expected[i] {
        if i < |log| {
          assert started[i] == log[i];
        }
      }
    }
  }

  /**
   * With fresh ids an exchange grows the log by exactly two messages, keeps
   * every earlier message, and leaves the placeholder holding either the
   * whole reply or, after an error, the apology flagged as an error.
   */
  lemma ExchangeAppendsTwo(log: seq<ChatMessage>, text: string, userId: int, aiId: int, stream: Stream)
    requires FreshIds(log, userId, aiId)
    ensures var r := AfterExchange(log, text, userId, aiId, stream);
            && |r| == |log| + 2
            && r[..|log|] == log
            && r[|log|] == ChatMessage(userId, text, User, false)
            && r[|log| + 1] == if stream.failed then ChatMessage(aiId, Apology, Ai, true)
                               else ChatMessage(aiId, CarriedText(stream.chunks), Ai, false)
  {
    StreamedTouchesOnlyPlaceholder(log, text, userId, aiId, stream.chunks);
    ReplyTextIsCarriedText(stream.chunks);
    var streamed := Streamed(Started(log, text, userId, aiId), aiId, stream.chunks);
    var r := AfterExchange(log, text, userId, aiId, stream);
    assert streamed[..|log|] == log;
    if stream.failed {
      assert forall i :: 0 <= i < |log| ==> r[i] == streamed[i];
      assert r[..|log|] == log;
    }
  }

  /**
   * `handleFormSubmit` of the widget: the trimmed input is sent only when it
   * is not blank and no reply is being typed.
   */
  function MessageToSend(input: string, isTyping: bool): (sent: Option<string>)
    ensures sent.Some? <==> !IsBlank(input) && !isTyping
    ensures sent.Some? ==> sent.value == Trim(input) && sent.value != ""
  {
    if Trim(input) != "" && !isTyping then Some(Trim(input)) else None
  }

  /** The widget's own state: whether it is open and what is typed in it. */
  class LiveChatWidget {
    var isOpen: bool
    var input: string

    constructor ()
      ensures !isOpen && input == ""
    {
      isOpen := false;
      input := "";
    }

    /** The send button: the input is cleared exactly when something is sent. */
    method HandleFormSubmit(isTyping: bool) returns (sent: Option<string>)
      modifies this`input
      ensures sent == MessageToSend(old(input), isTyping)
      ensures input == if sent.Some? then "" else old(input)
    {
      sent := MessageToSend(input, isTyping);
      if sent.Some? {
        input := "";
      }
    }

    /** Opening and closing the widget; the log lives in the application and is not touched. */
    method SetOpen(open: bool)
      modifies this`isOpen
      ensures isOpen == open
    {
      isOpen := open;
    }
  }
}
