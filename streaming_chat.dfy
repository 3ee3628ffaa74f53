/**
 * The streaming chat hook (src/hooks/useStreamingChat.ts): `sendMessage` posts the user's
 * text, then replays the reply word by word, each time showing the words received so far.
 *
 * The request is not performed: its outcome is the parameter `outcome`. The 50 ms pause
 * between chunks is left out. The two React state variables are fields; the chunks passed
 * to `onChunk`, the replies passed to `onMessage` and every value shown are recorded in
 * ghost logs.
 */
module StreamingChat {
  import opened Types
  import opened Strings

  /** How the request ends: the fetch rejects, the response is not ok, or it carries the reply. */
  datatype FetchOutcome = Rejected | NotOk | Ok(reply: Message)

  /** The k-th chunk (from 0): the first k + 1 words joined by single spaces. */
  function Chunk(words: seq<string>, k: nat): string
    requires k < |words|
  {
    Join(words[..k + 1], ' ')
  }

  /** The chunks the loop produces for the given words, one per word. */
  function Chunks(words: seq<string>): (r: seq<string>)
    ensures |r| == |words|
    ensures forall k :: 0 <= k < |words| ==> r[k] == Chunk(words, k)
  {
    seq(|words|, k requires 0 <= k < |words| => Chunk(words, k))
  }

  /** Every chunk is a prefix of the full reply, and the last chunk is the full reply. */
  lemma ChunksArePrefixes(content: string)
    ensures var cs := Chunks(Split(content, ' '));
      (forall k :: 0 <= k < |cs| ==> |cs[k]| <= |content| && cs[k] == content[..|cs[k]|])
      && cs[|cs| - 1] == content
  {
    var words := Split(content, ' ');
    var cs := Chunks(words);
    JoinSplit(content, ' ');
    forall k | 0 <= k < |cs| ensures |cs[k]| <= |content| && cs[k] == content[..|cs[k]|] {
      JoinPrefix(words, k + 1, ' ');
    }
    assert words[..|words|] == words;
  }

  /** The k-th chunk holds exactly the first k + 1 words, so each chunk has one word more than the one before. */
  lemma ChunkWordCount(content: string, k: nat)
    requires k < |Split(content, ' ')|
    ensures Split(Chunks(Split(content, ' '))[k], ' ') == Split(content, ' ')[..k + 1]
    ensures |Split(Chunks(Split(content, ' '))[k], ' ')| == k + 1
  {
    var words := Split(content, ' ');
    SplitJoin(words[..k + 1], ' ');
  }

  class StreamingChat {
    var isStreaming: bool
    var streamingMessage: string
    /** Every value given to `setIsStreaming`, in order. */
    ghost var streamingFlags: seq<bool>
    /** Every value given to `setStreamingMessage`, in order. */
    ghost var shown: seq<string>
    /** Every chunk passed to `onChunk`. */
    ghost var chunks: seq<string>
    /** Every reply passed to `onMessage`. */
    ghost var delivered: seq<Message>

    constructor ()
      ensures !isStreaming && streamingMessage == ""
      ensures streamingFlags == [] && shown == [] && chunks == [] && delivered == []
    {
      isStreaming, streamingMessage := false, "";
      streamingFlags, shown, chunks, delivered := [], [], [], [];
    }

    /**
     * `sendMessage`: streaming is on for the duration and off afterwards, on every path. A
     * reply is shown chunk by chunk, the shown text is cleared, and the reply is delivered;
     * a failed request delivers nothing and shows nothing beyond the initial clearing.
     */
    method SendMessage(content: string, outcome: FetchOutcome, hasOnChunk: bool)
      modifies this
      ensures !isStreaming && streamingMessage == ""
      ensures streamingFlags == old(streamingFlags) + [true, false]
      ensures outcome.Ok? ==>
        var cs := Chunks(Split(outcome.reply.content, ' '));
        && shown == old(shown) + [""] + cs + [""]
        && chunks == old(chunks) + (if hasOnChunk then cs else [])
        && delivered == old(delivered) + [outcome.reply]
      ensures !outcome.Ok? ==>
        shown == old(shown) + [""] && chunks == old(chunks) && delivered == old(delivered)
    {
      isStreaming, streamingFlags := true, streamingFlags + [true];
      streamingMessage, shown := "", shown + [""];
      if outcome.Ok? {
        var words := Split(outcome.reply.content, ' ');
        ghost var shown0, chunks0 := shown, chunks;
        for i := 0 to |words|
          invariant shown == shown0 + Chunks(words)[..i]
          invariant chunks == chunks0 + (if hasOnChunk then Chunks(words)[..i] else [])
          invariant streamingFlags == old(streamingFlags) + [true] && delivered == old(delivered)
        {
          var chunk := Join(words[..i + 1], ' ');
          assert Chunks(words)[..i + 1] == Chunks(words)[..i] + [chunk];
          streamingMessage, shown := chunk, shown + [chunk];
          if hasOnChunk {
            chunks := chunks + [chunk];
          }
        }
        assert Chunks(words)[..|words|] == Chunks(words);
        streamingMessage, shown := "", shown + [""];
        delivered := delivered + [outcome.reply];
      }
      isStreaming, streamingFlags := false, streamingFlags + [false];
    }

    /** `stopStreaming`: clears the flag and touches nothing else. */
    method StopStreaming()
      modifies this
      ensures !isStreaming && streamingFlags == old(streamingFlags) + [false]
      ensures streamingMessage == old(streamingMessage) && shown == old(shown)
      ensures chunks == old(chunks) && delivered == old(delivered)
    {
      isStreaming, streamingFlags := false, streamingFlags + [false];
    }
  }
}
