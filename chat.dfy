/**
 * The chat assistant: a question typed by the user is appended to the
 * conversation, sent to the AI, and answered by exactly one AI message,
 * which lists the web sources the answer was grounded on.
 */
module Chat {
  import opened Wrappers
  import opened Text
  import opened Ideas

  const Greeting: string := "Olá! Sou seu assistente de IA. Como posso ajudar a analisar este portfólio de serviços?"
  const Apology: string := "Desculpe, ocorreu um erro ao processar sua solicitação."
  const SourcesHeader: string := "\n\n**Fontes:**\n"

  /** A chunk that names a web page with a non-empty address. */
  predicate Cited(c: GroundingChunk)
  {
    c.web.Some? && c.web.value.uri != ""
  }

  /** The link text: the page title, or its address when the title is empty. */
  function Label(w: WebSource): (r: string)
    ensures w.uri != "" ==> r != ""
  {
    if w.title != "" then w.title else w.uri
  }

  /** The markdown list item of one cited page. */
  function Bullet(w: WebSource): (r: string)
    ensures |r| > |w.uri|
  {
    "* [" + Label(w) + "](" + w.uri + ")\n"
  }

  /** The list items of the cited chunks, in order; other chunks add nothing. */
  function Bullets(chunks: seq<GroundingChunk>): string
  {
    if chunks == [] then ""
    else
      (if Cited(chunks[0]) then Bullet(chunks[0].web.value) else "") + Bullets(chunks[1..])
  }

  /** What is appended to the answer: the header and the list items, only when there are chunks. */
  function SourcesText(chunks: seq<GroundingChunk>): (r: string)
    ensures r == "" <==> chunks == []
  {
    if chunks == [] then "" else SourcesHeader + Bullets(chunks)
  }

  /** Sources, when there are any chunks, open with the header. */
  lemma SourcesOpenWithHeader(chunks: seq<GroundingChunk>)
    requires chunks != []
    ensures SourcesHeader <= SourcesText(chunks)
  {
  }

  /**
   * The loop of `handleSubmit` that builds the answer: the AI text, then,
   * for a non-empty chunk list, the header and one item per cited chunk.
   */
  method AnswerText(text: string, chunks: seq<GroundingChunk>) returns (r: string)
    ensures r == text + SourcesText(chunks)
  {
    r := text;
    if |chunks| > 0 {
      r := r + SourcesHeader;
      for i := 0 to |chunks|
        invariant r == text + SourcesHeader + Bullets(chunks[..i])
      {
        AnswerStep(text + SourcesHeader, chunks, i, r);
        if chunks[i].web.Some? && chunks[i].web.value.uri != "" {
          r := r + Bullet(chunks[i].web.value);
        }
      }
      assert chunks[..|chunks|] == chunks;
    }
  }

  lemma {:induction false} BulletsAppend(a: seq<GroundingChunk>, b: seq<GroundingChunk>)
    ensures Bullets(a + b) == Bullets(a) + Bullets(b)
  {
    if a == [] {
      assert a + b == b;
    } else {
      assert (a + b)[1..] == a[1..] + b;
      BulletsAppend(a[1..], b);
    }
  }

  lemma BulletsSnoc(s: seq<GroundingChunk>, c: GroundingChunk)
    ensures Bullets(s + [c]) == Bullets(s) + (if Cited(c) then Bullet(c.web.value) else "")
  {
    BulletsAppend(s, [c]);
    assert [c][1..] == [];
  }

  /** One more chunk read by the loop of `handleSubmit` adds its list item, if any. */
  lemma AnswerStep(prefix: string, chunks: seq<GroundingChunk>, i: nat, r: string)
    requires i < |chunks| && r == prefix + Bullets(chunks[..i])
    ensures r + (if Cited(chunks[i]) then Bullet(chunks[i].web.value) else "") == prefix + Bullets(chunks[..i + 1])
  {
    assert chunks[..i + 1] == chunks[..i] + [chunks[i]];
    BulletsSnoc(chunks[..i], chunks[i]);
  }

  /** Every cited page has its list item in the answer. */
  lemma CitedPageListed(chunks: seq<GroundingChunk>, i: nat)
    requires i < |chunks| && Cited(chunks[i])
    ensures Contains(SourcesText(chunks), Bullet(chunks[i].web.value))
  {
    var pre, post := chunks[..i], chunks[i + 1..];
    assert chunks == pre + [chunks[i]] + post;
    BulletsAppend(pre + [chunks[i]], post);
    BulletsAppend(pre, [chunks[i]]);
    assert Bullets([chunks[i]]) == Bullet(chunks[i].web.value) by {
      assert [chunks[i]][1..] == [];
    }
    assert SourcesText(chunks) == SourcesHeader + Bullets(pre) + Bullet(chunks[i].web.value) + Bullets(post);
    ContainsInfix(SourcesHeader + Bullets(pre), Bullet(chunks[i].web.value), Bullets(post));
  }

  /** Chunks without a page leave only the header. */
  lemma {:induction false} UncitedAddNothing(chunks: seq<GroundingChunk>)
    requires forall i :: 0 <= i < |chunks| ==> !Cited(chunks[i])
    ensures Bullets(chunks) == ""
  {
    if chunks != [] {
      UncitedAddNothing(chunks[1..]);
    }
  }

  /** The conversation, the input box and whether an answer is awaited. */
  class ChatWidget {
    var messages: seq<ChatMessage>
    var userInput: string
    var isLoading: bool

    /** While an answer is awaited, the last message is the user's question. */
    ghost predicate Valid()
      reads this
    {
      messages != [] && (isLoading ==> messages[|messages| - 1].sender == UserSender)
    }

    /** The conversation opens with the assistant's greeting. */
    constructor ()
      ensures Valid()
      ensures messages == [ChatMessage(Greeting, AiSender)] && userInput == "" && !isLoading
    {
      messages := [ChatMessage(Greeting, AiSender)];
      userInput := "";
      isLoading := false;
    }

    method Type(text: string)
      modifies this`userInput
      ensures userInput == text
    {
      userInput := text;
    }

    /**
     * The first half of `handleSubmit`: a blank input, or a submission while
     * an answer is awaited, changes nothing; otherwise the trimmed question
     * is appended as the user's message, the input is cleared and the
     * answer is awaited.
     */
    method BeginSubmit() returns (query: Option<string>)
      requires Valid()
      modifies this
      ensures Valid()
      ensures query.Some? <==> !Blank(old(userInput)) && !old(isLoading)
      ensures query.None? ==> messages == old(messages) && userInput == old(userInput) && isLoading == old(isLoading)
      ensures query.Some? ==> (
        && query.value == Trim(old(userInput))
        && messages == old(messages) + [ChatMessage(query.value, UserSender)]
        && userInput == "" && isLoading)
    {
      var q := Trim(userInput);
      if q == [] || isLoading {
        return None;
      }
      messages := messages + [ChatMessage(q, UserSender)];
      userInput := "";
      isLoading := true;
      query := Some(q);
    }

    /**
     * The second half of `handleSubmit`: exactly one AI message is appended,
     * the answer with its sources or the apology, and the wait ends.
     */
    method FinishSubmit(reply: Result<Insight, Thrown>)
      requires Valid() && isLoading
      modifies this`messages, this`isLoading
      ensures Valid()
      ensures !isLoading
      ensures reply.Ok? ==> messages == old(messages) + [ChatMessage(reply.value.text + SourcesText(reply.value.groundingChunks), AiSender)]
      ensures reply.Err? ==> messages == old(messages) + [ChatMessage(Apology, AiSender)]
    {
      match reply {
        case Ok(insight) =>
          var text := AnswerText(insight.text, insight.groundingChunks);
          messages := messages + [ChatMessage(text, AiSender)];
        case Err(_) =>
          messages := messages + [ChatMessage(Apology, AiSender)];
      }
      isLoading := false;
    }
  }
}
