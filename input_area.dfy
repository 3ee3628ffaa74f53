/**
 * The message composer (src/components/chat/InputArea.tsx): the text being typed, the
 * attached files, and the streaming flag. Sending appends the user's message to the
 * thread and schedules a canned assistant reply; the stop button only clears the flag.
 *
 * The thread is the list the parent updates through `onSendMessage`; here the updaters
 * are applied at once to the field `thread`. The two-second timer is the list `pending`
 * of replies not yet arrived, each holding the input and the conversation id its closure
 * captured when the message was sent, delivered in order by `ReplyArrives`.
 * `generateId`, `URL.createObjectURL` and `new Date()` are parameters; the object URLs are
 * indexed by position, since each call creates a new one.
 */
module InputArea {
  import opened Wrappers
  import opened Types
  import opened Strings
  import opened Seqs
  import AttachmentButton

  type File = AttachmentButton.File

  /** The composer's fixed size limit: 10 MB. */
  const MaxFileBytes: nat := 10 * 1024 * 1024

  const TooLargeToast := "Some files were too large (max 10MB)"

  function WithinLimit(): File -> bool {
    (f: File) => f.size <= MaxFileBytes
  }

  /** `!input.trim() && attachments.length === 0`: nothing to send; the send button is disabled. */
  predicate SendDisabled(input: string, attachments: seq<File>) {
    Trim(input) == "" && |attachments| == 0
  }

  /** Sending is refused exactly when the input is all whitespace and nothing is attached. */
  lemma SendDisabledMeans(input: string, attachments: seq<File>)
    ensures SendDisabled(input, attachments) <==>
      (forall k :: 0 <= k < |input| ==> IsWhitespace(input[k])) && |attachments| == 0
  {
    TrimEmpty(input);
  }

  /** A scheduled reply: the input and the conversation id as they were when the message was sent. */
  datatype PendingReply = PendingReply(input: string, conversationId: string)

  /** The attachment record for a file: same name, type and size. */
  function AttachmentOf(f: File, id: string, url: string): (a: Attachment)
    ensures a.name == f.name && a.mimeType == f.mimeType && a.size == f.size
  {
    Attachment(id, f.name, f.mimeType, f.size, url)
  }

  /** One attachment per file, in order, each with the file's name, type and size, and its own id and object URL. */
  function AttachmentsOf(files: seq<File>, attachmentId: nat -> string, objectUrl: nat -> string): (r: seq<Attachment>)
    ensures |r| == |files|
    ensures forall k :: 0 <= k < |files| ==>
      r[k].name == files[k].name && r[k].mimeType == files[k].mimeType && r[k].size == files[k].size
    ensures forall k :: 0 <= k < |files| ==> r[k].id == attachmentId(k) && r[k].url == objectUrl(k)
  {
    var r := seq(|files|, k requires 0 <= k < |files| => AttachmentOf(files[k], attachmentId(k), objectUrl(k)));
    assert forall k :: 0 <= k < |files| ==> r[k] == AttachmentOf(files[k], attachmentId(k), objectUrl(k));
    r
  }

  /** The user's message: the raw input as content, with the attachments. */
  function UserMessage(input: string, files: seq<File>, conversationId: string, messageId: string,
                       attachmentId: nat -> string, objectUrl: nat -> string, now: int): (m: Message)
    ensures m.role == User && m.content == input && m.conversationId == conversationId
    ensures m.attachments == Some(AttachmentsOf(files, attachmentId, objectUrl))
    ensures m.thinking.None? && m.toolCalls.None? && m.artifactId.None?
  {
    Message(messageId, conversationId, User, input, now,
      Some(AttachmentsOf(files, attachmentId, objectUrl)), None, None, None)
  }

  const ReplySteps: seq<string> := ["Analyzing your request...", "Gathering relevant information...", "Formulating response..."]

  /**
   * The simulated reply to `input`: it quotes the input, carries three thinking steps with
   * indices 1, 2, 3, and a single web search for the input iff the lower-cased input
   * contains "search".
   */
  function Reply(input: string, conversationId: string, replyId: string, stepId: nat -> string,
                 toolId: string, now: int): (m: Message)
    ensures m.role == Assistant && m.conversationId == conversationId
    ensures m.content == "I understand you're asking about \"" + input + "\". Let me help you with that..."
    ensures m.thinking.Some? && |m.thinking.value| == 3
    ensures forall k :: 0 <= k < 3 ==> m.thinking.value[k].index == k + 1 && m.thinking.value[k].step == ReplySteps[k]
    ensures m.toolCalls.Some? <==> Contains(Lower(input), "search")
    ensures m.toolCalls.Some? ==>
      m.toolCalls.value == [ToolCall(toolId, "web_search", input, Some("Found 5 results"))]
    ensures m.attachments.None? && m.artifactId.None?
  {
    var steps := seq(3, k requires 0 <= k < 3 => ThinkingStep(stepId(k), ReplySteps[k], now, k + 1));
    var tools := if Contains(Lower(input), "search")
      then Some([ToolCall(toolId, "web_search", input, Some("Found 5 results"))]) else None;
    Message(replyId, conversationId, Assistant,
      "I understand you're asking about \"" + input + "\". Let me help you with that...",
      now, None, Some(steps), tools, None)
  }

  /** `prev.filter((_, i) => i !== index)`: drops the element at `index`, if there is one. */
  function RemoveAt<T>(s: seq<T>, index: int): (r: seq<T>)
    ensures 0 <= index < |s| ==> |r| == |s| - 1 && r == s[..index] + s[index + 1..]
    ensures !(0 <= index < |s|) ==> r == s
    decreases |s|
  {
    if |s| == 0 then []
    else (if index == 0 then [] else [s[0]]) + RemoveAt(s[1..], index - 1)
  }

  class Composer {
    var input: string
    var attachments: seq<File>
    var isStreaming: bool
    /** The conversation's messages, as the parent holds them. */
    var thread: seq<Message>
    /** The sent messages whose simulated reply is still to come, oldest first. */
    var pending: seq<PendingReply>
    /** Every toast raised. */
    ghost var toasts: seq<string>

    /** Every attached file is within the size limit. */
    ghost predicate Valid()
      reads this
    {
      forall k :: 0 <= k < |attachments| ==> attachments[k].size <= MaxFileBytes
    }

    constructor (thread: seq<Message>)
      ensures Valid()
      ensures input == "" && attachments == [] && !isStreaming
      ensures this.thread == thread && pending == [] && toasts == []
    {
      input, attachments, isStreaming := "", [], false;
      this.thread, pending, toasts := thread, [], [];
    }

    /** The textarea's `onChange`. */
    method SetInput(text: string)
      modifies this
      ensures input == text
      ensures attachments == old(attachments) && isStreaming == old(isStreaming)
      ensures thread == old(thread) && pending == old(pending) && toasts == old(toasts)
    {
      input := text;
    }

    /**
     * `handleSend`: with nothing to send, nothing changes. Otherwise the user's message is
     * appended to the thread, the input and attachments are cleared, streaming starts, and
     * a reply to the input as it was is scheduled.
     */
    method HandleSend(conversationId: string, messageId: string, attachmentId: nat -> string,
                      objectUrl: nat -> string, now: int)
      requires Valid()
      modifies this
      ensures Valid()
      ensures toasts == old(toasts)
      ensures SendDisabled(old(input), old(attachments)) ==>
        input == old(input) && attachments == old(attachments) && isStreaming == old(isStreaming)
        && thread == old(thread) && pending == old(pending)
      ensures !SendDisabled(old(input), old(attachments)) ==>
        && thread == old(thread) + [UserMessage(old(input), old(attachments), conversationId, messageId, attachmentId, objectUrl, now)]
        && input == "" && attachments == [] && isStreaming
        && pending == old(pending) + [PendingReply(old(input), conversationId)]
    {
      if SendDisabled(input, attachments) {
        return;
      }
      var message := UserMessage(input, attachments, conversationId, messageId, attachmentId, objectUrl, now);
      thread := thread + [message];
      pending := pending + [PendingReply(input, conversationId)];
      input := "";
      attachments := [];
      isStreaming := true;
    }

    /**
     * `handleKeyDown`: Enter without Shift does what the send button does, even while a
     * reply is streaming; any other key, or Shift+Enter, changes nothing.
     */
    method HandleKeyDown(enter: bool, shift: bool, conversationId: string, messageId: string,
                         attachmentId: nat -> string, objectUrl: nat -> string, now: int)
      requires Valid()
      modifies this
      ensures Valid()
      ensures toasts == old(toasts)
      ensures !(enter && !shift) || SendDisabled(old(input), old(attachments)) ==>
        input == old(input) && attachments == old(attachments) && isStreaming == old(isStreaming)
        && thread == old(thread) && pending == old(pending)
      ensures enter && !shift && !SendDisabled(old(input), old(attachments)) ==>
        && thread == old(thread) + [UserMessage(old(input), old(attachments), conversationId, messageId, attachmentId, objectUrl, now)]
        && input == "" && attachments == [] && isStreaming
        && pending == old(pending) + [PendingReply(old(input), conversationId)]
    {
      if enter && !shift {
        HandleSend(conversationId, messageId, attachmentId, objectUrl, now);
      }
    }

    /**
     * The scheduled reply arrives: the reply to the oldest pending message is appended, in
     * the conversation that message was sent in, and streaming stops, whether or not the
     * stop button was pressed meanwhile.
     */
    method ReplyArrives(replyId: string, stepId: nat -> string, toolId: string, now: int)
      requires Valid()
      requires |pending| > 0
      modifies this
      ensures Valid()
      ensures thread == old(thread) + [Reply(old(pending)[0].input, old(pending)[0].conversationId, replyId, stepId, toolId, now)]
      ensures pending == old(pending)[1..] && !isStreaming
      ensures input == old(input) && attachments == old(attachments) && toasts == old(toasts)
    {
      var reply := Reply(pending[0].input, pending[0].conversationId, replyId, stepId, toolId, now);
      thread := thread + [reply];
      pending := pending[1..];
      isStreaming := false;
    }

    /**
     * `handleFileSelect`: the files within 10 MB are appended after the current attachments,
     * in order, and a single toast is raised iff some file was too large.
     */
    method HandleFileSelect(files: seq<File>)
      requires Valid()
      modifies this
      ensures Valid()
      ensures attachments == old(attachments) + Filter(WithinLimit(), files)
      ensures toasts == old(toasts) + (if exists k :: 0 <= k < |files| && files[k].size > MaxFileBytes then [TooLargeToast] else [])
      ensures input == old(input) && isStreaming == old(isStreaming) && thread == old(thread) && pending == old(pending)
    {
      var valid := Filter(WithinLimit(), files);
      FilterKeepsOrder(WithinLimit(), files);
      FilterFullLength(WithinLimit(), files);
      if |valid| != |files| {
        toasts := toasts + [TooLargeToast];
      }
      attachments := attachments + valid;
    }

    /** `removeAttachment`: removes exactly the file at `index`; an index out of range changes nothing. */
    method RemoveAttachment(index: int)
      requires Valid()
      modifies this
      ensures Valid()
      ensures attachments == RemoveAt(old(attachments), index)
      ensures input == old(input) && isStreaming == old(isStreaming)
      ensures thread == old(thread) && pending == old(pending) && toasts == old(toasts)
    {
      attachments := RemoveAt(attachments, index);
    }

    /** The stop button: clears the flag and nothing else; the pending replies still arrive. */
    method Stop()
      modifies this
      ensures !isStreaming
      ensures input == old(input) && attachments == old(attachments)
      ensures thread == old(thread) && pending == old(pending) && toasts == old(toasts)
    {
      isStreaming := false;
    }
  }

  /**
   * Sending a message and receiving its reply appends the message and then the reply to the
   * input sent, in the conversation it was sent in.
   */
  method SendThenReply(c: Composer, conversationId: string, messageId: string, attachmentId: nat -> string,
                       objectUrl: nat -> string, replyId: string, stepId: nat -> string, toolId: string, now: int)
    requires c.Valid() && c.pending == [] && !SendDisabled(c.input, c.attachments)
    modifies c
    ensures c.Valid() && c.pending == [] && !c.isStreaming
    ensures c.thread == old(c.thread)
      + [UserMessage(old(c.input), old(c.attachments), conversationId, messageId, attachmentId, objectUrl, now)]
      + [Reply(old(c.input), conversationId, replyId, stepId, toolId, now)]
  {
    c.HandleSend(conversationId, messageId, attachmentId, objectUrl, now);
    c.Stop();
    c.ReplyArrives(replyId, stepId, toolId, now);
  }
}
