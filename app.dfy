/** The retrieval-augmented chat app: its own list and string logic around the
    PDF reader, the embedding model, the vector index and the language model,
    each of which is an input here (page texts, an index row, a token stream). */
module App {

  /** One page of the loaded PDF: its 1-based page number and its extracted text. */
  datatype Document = Document(page: nat, content: string)

  datatype Role = System | User | Assistant

  /** One chat-completion message, `{"role": ..., "content": ...}`. */
  datatype Message = Message(role: Role, content: string)

  /** One (user, assistant) pair of the chat history. */
  datatype Turn = Turn(user: string, assistant: string)

  /** The fallback list's only element when the index row is empty. */
  const NoResults: string := "No relevant documents found."

  /** The hard-coded system prompt that replaces the caller's system message. */
  const SystemPrompt: string := "Knowledgeable DBT (Dialectical Behavior Therapy) coach Focuses on one topic/option at a time Uses friendly greetings and asks thoughtful questions like a human counselor Keeps responses concise and avoids long-winded answers Listens attentively and provides accurate, helpful information Treats users with respect, considering their emotional state Refers to external resources (e.g. DBT workbooks) when relevant Asks one clarifying question at a time to guide the conversation Avoids suggesting anything potentially dangerous and advises seeking emergency help if needed."

  /** Head of the final system message that carries the retrieved passages. */
  const ContextPrefix: string := "Relevant documents: "

  /** Separator between retrieved passages in the context block. */
  const PassageSeparator: string := "\n"

  /** A Python string is truthy exactly when it is not empty. */
  predicate Truthy(s: string) {
    |s| > 0
  }

  // ---------------------------------------------------------------------------
  // Page segmentation

  /** The document list built from the page texts, one record per page in
      page order; defined page by page, the way the loop appends. */
  function Segment(pages: seq<string>): (docs: seq<Document>)
    ensures |docs| == |pages|
    ensures forall i :: 0 <= i < |pages| ==> docs[i] == Document(i + 1, pages[i])
    decreases |pages|
  {
    if |pages| == 0 then []
    else Segment(pages[..|pages| - 1]) + [Document(|pages|, pages[|pages| - 1])]
  }

  /** The page texts recorded in a document list. */
  function Contents(docs: seq<Document>): seq<string>
    decreases |docs|
  {
    if |docs| == 0 then [] else Contents(docs[..|docs| - 1]) + [docs[|docs| - 1].content]
  }

  /** Segmentation loses no page text, empty pages included, and keeps the
      pages in order. */
  lemma {:induction false} SegmentRoundTrip(pages: seq<string>)
    ensures Contents(Segment(pages)) == pages
    decreases |pages|
  {
    if |pages| > 0 {
      var init := pages[..|pages| - 1];
      SegmentRoundTrip(init);
      var docs := Segment(pages);
      assert docs[..|docs| - 1] == Segment(init);
      assert init + [pages[|pages| - 1]] == pages;
    }
  }

  // ---------------------------------------------------------------------------
  // Result mapping and fallback

  /** Python's `s[i]` on a list: a negative index counts from the end. */
  function PyIndex<T>(s: seq<T>, i: int): T
    requires -|s| <= i < |s|
  {
    if i >= 0 then s[i] else s[|s| + i]
  }

  /** Every index of the row can be used on the document list without an
      IndexError (Python accepts -|documents| up to |documents| - 1). */
  predicate HitsInBounds(documents: seq<Document>, hits: seq<int>) {
    forall j :: 0 <= j < |hits| ==> -|documents| <= hits[j] < |documents|
  }

  /** The passages `search_documents` returns for the index row `hits`
      that the vector search produced over `documents`. */
  function SearchResults(documents: seq<Document>, hits: seq<int>): (results: seq<string>)
    requires HitsInBounds(documents, hits)
    ensures |results| > 0
    ensures |hits| == 0 ==> results == [NoResults]
    ensures |hits| > 0 ==> |results| == |hits|
    ensures |hits| > 0 ==> forall j :: 0 <= j < |hits| && 0 <= hits[j] ==> results[j] == documents[hits[j]].content
    ensures |hits| > 0 ==> forall j :: 0 <= j < |hits| && hits[j] < 0 ==> results[j] == documents[|documents| + hits[j]].content
  {
    var mapped := seq(|hits|, j requires 0 <= j < |hits| => PyIndex(documents, hits[j]).content);
    if |mapped| > 0 then mapped else [NoResults]
  }

  /** After loading, search hands back the texts of the pages the index row
      points at, in the row's order; a padding index -1 names the last page. */
  lemma SearchLoadedPages(pages: seq<string>, hits: seq<int>)
    requires forall j :: 0 <= j < |hits| ==> -|pages| <= hits[j] < |pages|
    ensures HitsInBounds(Segment(pages), hits)
    ensures |hits| > 0 ==> |SearchResults(Segment(pages), hits)| == |hits|
    ensures |hits| > 0 ==> forall j :: 0 <= j < |hits| ==> SearchResults(Segment(pages), hits)[j] == PyIndex(pages, hits[j])
    ensures forall j :: 0 <= j < |hits| && hits[j] == -1 ==> SearchResults(Segment(pages), hits)[j] == pages[|pages| - 1]
  {
  }

  // ---------------------------------------------------------------------------
  // Strings: str.join and repeated +=

  /** Sum of the lengths of the parts. */
  function TotalLength(parts: seq<string>): nat
    decreases |parts|
  {
    if |parts| == 0 then 0 else |parts[0]| + TotalLength(parts[1..])
  }

  /** Python's `sep.join(parts)`: the parts with `sep` between neighbours. */
  function Join(parts: seq<string>, sep: string): (s: string)
    ensures |parts| == 1 ==> s == parts[0]
    ensures |parts| > 0 ==> |s| == TotalLength(parts) + (|parts| - 1) * |sep|
    ensures |parts| == 0 ==> s == ""
    decreases |parts|
  {
    if |parts| == 0 then ""
    else if |parts| == 1 then parts[0]
    else parts[0] + sep + Join(parts[1..], sep)
  }

  /** Joining one more part puts exactly one separator before it: the joined
      text never ends with a separator of its own. */
  lemma {:induction false} JoinAppend(parts: seq<string>, x: string, sep: string)
    requires |parts| > 0
    ensures Join(parts + [x], sep) == Join(parts, sep) + sep + x
    decreases |parts|
  {
    if |parts| > 1 {
      assert (parts + [x])[1..] == parts[1..] + [x];
      JoinAppend(parts[1..], x, sep);
    }
  }

  /** The text accumulated from a token stream, token by token. */
  function Concat(tokens: seq<string>): string
    decreases |tokens|
  {
    if |tokens| == 0 then "" else Concat(tokens[..|tokens| - 1]) + tokens[|tokens| - 1]
  }

  /** Accumulating the tokens is the same as `"".join(tokens)`. */
  lemma {:induction false} ConcatIsJoin(tokens: seq<string>)
    ensures Concat(tokens) == Join(tokens, "")
    decreases |tokens|
  {
    if |tokens| > 1 {
      var init := tokens[..|tokens| - 1];
      ConcatIsJoin(init);
      JoinAppend(init, tokens[|tokens| - 1], "");
      assert init + [tokens[|tokens| - 1]] == tokens;
    } else if |tokens| == 1 {
      assert tokens[..0] == [];
    }
  }

  /** The text accumulated from a shorter prefix of the stream is a prefix of
      the text accumulated from a longer one. */
  lemma {:induction false} ConcatPrefix(tokens: seq<string>, i: nat, j: nat)
    requires i <= j <= |tokens|
    ensures Concat(tokens[..i]) <= Concat(tokens[..j])
    decreases j - i
  {
    if i < j {
      ConcatPrefix(tokens, i, j - 1);
      assert tokens[..j][..j - 1] == tokens[..j - 1];
    }
  }

  // ---------------------------------------------------------------------------
  // Chat message assembly

  /** The messages one history pair contributes: the user turn if truthy,
      then the assistant turn if truthy. */
  function TurnMessages(val: Turn): (ms: seq<Message>)
  {
    (if Truthy(val.user) then [Message(User, val.user)] else [])
      + (if Truthy(val.assistant) then [Message(Assistant, val.assistant)] else [])
  }

  /** Number of truthy strings among all user and assistant turns. */
  function TruthyCount(history: seq<Turn>): nat
    decreases |history|
  {
    if |history| == 0 then 0
    else
      var val := history[0];
      (if Truthy(val.user) then 1 else 0) + (if Truthy(val.assistant) then 1 else 0) + TruthyCount(history[1..])
  }

  /** The history part of the message list, built pair by pair as the loop
      appends. */
  function HistoryMessages(history: seq<Turn>): (ms: seq<Message>)
    ensures forall i :: 0 <= i < |ms| ==> ms[i].role != System && Truthy(ms[i].content)
    decreases |history|
  {
    if |history| == 0 then []
    else HistoryMessages(history[..|history| - 1]) + TurnMessages(history[|history| - 1])
  }

  /** Reference reading of the history: every user and assistant string in
      order, before any filtering. */
  function Utterances(history: seq<Turn>): (ms: seq<Message>)
    ensures |ms| == 2 * |history|
    decreases |history|
  {
    if |history| == 0 then []
    else [Message(User, history[0].user), Message(Assistant, history[0].assistant)] + Utterances(history[1..])
  }

  /** The messages whose content is truthy, in order. */
  function Spoken(ms: seq<Message>): (r: seq<Message>)
    decreases |ms|
  {
    if |ms| == 0 then []
    else (if Truthy(ms[0].content) then [ms[0]] else []) + Spoken(ms[1..])
  }

  lemma {:induction false} SpokenAppend(a: seq<Message>, b: seq<Message>)
    ensures Spoken(a + b) == Spoken(a) + Spoken(b)
    decreases |a|
  {
    if |a| > 0 {
      assert (a + b)[0] == a[0];
      assert (a + b)[1..] == a[1..] + b;
      SpokenAppend(a[1..], b);
      var head := if Truthy(a[0].content) then [a[0]] else [];
      assert Spoken(a + b) == head + (Spoken(a[1..]) + Spoken(b));
    } else {
      assert a + b == b;
    }
  }

  lemma {:induction false} UtterancesAppend(history: seq<Turn>, val: Turn)
    ensures Utterances(history + [val]) == Utterances(history) + [Message(User, val.user), Message(Assistant, val.assistant)]
    decreases |history|
  {
    if |history| > 0 {
      assert (history + [val])[1..] == history[1..] + [val];
      UtterancesAppend(history[1..], val);
    } else {
      assert history + [val] == [val];
    }
  }

  /** The history part holds exactly the truthy user and assistant strings, in
      history order and with their roles; nothing else. */
  lemma {:induction false} HistoryIsSpokenUtterances(history: seq<Turn>)
    ensures HistoryMessages(history) == Spoken(Utterances(history))
    decreases |history|
  {
    if |history| > 0 {
      var init, val := history[..|history| - 1], history[|history| - 1];
      assert init + [val] == history;
      HistoryIsSpokenUtterances(init);
      UtterancesAppend(init, val);
      var pair := [Message(User, val.user), Message(Assistant, val.assistant)];
      SpokenAppend(Utterances(init), pair);
      assert pair[1..][1..] == [];
      assert Spoken(pair[1..]) == (if Truthy(val.assistant) then [pair[1]] else []);
      assert Spoken(pair) == TurnMessages(val);
    }
  }

  /** The number of history messages is the number of truthy turns. */
  lemma {:induction false} HistoryLength(history: seq<Turn>)
    ensures |HistoryMessages(history)| == TruthyCount(history)
    decreases |history|
  {
    if |history| > 0 {
      HistoryLength(history[1..]);
      HistoryIsSpokenUtterances(history);
      HistoryIsSpokenUtterances(history[1..]);
      var pair := [Message(User, history[0].user), Message(Assistant, history[0].assistant)];
      assert Utterances(history) == pair + Utterances(history[1..]);
      SpokenAppend(pair, Utterances(history[1..]));
      assert pair[1..][1..] == [];
    }
  }

  /** Builds the message list `respond` sends to the model: the fixed system
      prompt (the caller's `systemMessage` is discarded), the truthy history
      turns, the user's message, and the retrieved passages. */
  method BuildMessages(message: string, history: seq<Turn>, systemMessage: string, retrievedDocs: seq<string>)
    returns (messages: seq<Message>)
    ensures messages == [Message(System, SystemPrompt)] + HistoryMessages(history)
      + [Message(User, message), Message(System, ContextPrefix + Join(retrievedDocs, PassageSeparator))]
    ensures |messages| == 1 + TruthyCount(history) + 2
    ensures messages[0] == Message(System, SystemPrompt)
    ensures forall i :: 0 < i < |messages| - 1 ==> messages[i].role != System
    ensures messages[|messages| - 2] == Message(User, message)
    ensures messages[|messages| - 1] == Message(System, ContextPrefix + Join(retrievedDocs, PassageSeparator))
  {
    messages := [Message(System, SystemPrompt)];
    var n := 0;
    while n < |history|
      invariant 0 <= n <= |history|
      invariant messages == [Message(System, SystemPrompt)] + HistoryMessages(history[..n])
    {
      var val := history[n];
      assert history[..n + 1][..n] == history[..n];
      if Truthy(val.user) {
        messages := messages + [Message(User, val.user)];
      }
      if Truthy(val.assistant) {
        messages := messages + [Message(Assistant, val.assistant)];
      }
      n := n + 1;
    }
    assert history[..|history|] == history;
    HistoryLength(history);
    messages := messages + [Message(User, message)];
    var context := Join(retrievedDocs, PassageSeparator);
    messages := messages + [Message(System, ContextPrefix + context)];
  }

  // ---------------------------------------------------------------------------
  // Streamed response accumulation

  /** The successive values `respond` outputs while the model streams
      `tokens`: the running text after each token. */
  method StreamResponse(tokens: seq<string>) returns (outputs: seq<string>)
    ensures |outputs| == |tokens|
    ensures forall i :: 0 <= i < |outputs| ==> outputs[i] == Concat(tokens[..i + 1])
    ensures |outputs| > 0 ==> outputs[0] == tokens[0]
    ensures |tokens| > 0 ==> outputs[|outputs| - 1] == Concat(tokens)
  {
    var response := "";
    outputs := [];
    var i := 0;
    while i < |tokens|
      invariant 0 <= i <= |tokens|
      invariant response == Concat(tokens[..i])
      invariant |outputs| == i
      invariant forall k :: 0 <= k < i ==> outputs[k] == Concat(tokens[..k + 1])
    {
      assert tokens[..i + 1][..i] == tokens[..i];
      response := response + tokens[i];
      outputs := outputs + [response];
      i := i + 1;
    }
    assert tokens[..|tokens|] == tokens;
    if |tokens| > 0 {
      assert tokens[..1][..0] == [];
    }
  }

  /** Every yield is a prefix of every later one. */
  lemma StreamOutputsGrow(tokens: seq<string>, outputs: seq<string>, i: nat, j: nat)
    requires |outputs| == |tokens|
    requires forall k :: 0 <= k < |outputs| ==> outputs[k] == Concat(tokens[..k + 1])
    requires i <= j < |outputs|
    ensures outputs[i] <= outputs[j]
  {
    ConcatPrefix(tokens, i + 1, j + 1);
  }

  // ---------------------------------------------------------------------------
  // The app object and one chat turn

  /** The app's state: the documents loaded from the PDF. */
  class MyApp {
    var documents: seq<Document>

    /** Starts with no documents and loads the given pages. */
    constructor (pages: seq<string>)
      ensures documents == Segment(pages)
    {
      documents := [];
      new;
      LoadPdf(pages);
    }

    /** Replaces the documents with one record per page of `pages`. */
    method LoadPdf(pages: seq<string>)
      modifies this
      ensures documents == Segment(pages)
      ensures |documents| == |pages|
      ensures forall i :: 0 <= i < |pages| ==> documents[i] == Document(i + 1, pages[i])
    {
      documents := [];
      var pageNum := 0;
      while pageNum < |pages|
        invariant 0 <= pageNum <= |pages|
        invariant documents == Segment(pages[..pageNum])
      {
        assert pages[..pageNum + 1][..pageNum] == pages[..pageNum];
        var text := pages[pageNum];
        documents := documents + [Document(pageNum + 1, text)];
        pageNum := pageNum + 1;
      }
      assert pages[..|pages|] == pages;
    }
  }

  /** One chat turn: the message list sent to the model, built around the
      passages `app` retrieves for the index row `hits`, and the texts
      yielded while the model streams `tokens` back. */
  method Respond(app: MyApp, message: string, history: seq<Turn>, systemMessage: string,
                 hits: seq<int>, tokens: seq<string>)
    returns (messages: seq<Message>, outputs: seq<string>)
    requires HitsInBounds(app.documents, hits)
    ensures |messages| == TruthyCount(history) + 3
    ensures messages[0] == Message(System, SystemPrompt)
    ensures messages[1..|messages| - 2] == HistoryMessages(history)
    ensures forall i :: 0 < i < |messages| - 1 ==> messages[i].role != System
    ensures messages[|messages| - 2] == Message(User, message)
    ensures messages[|messages| - 1]
      == Message(System, ContextPrefix + Join(SearchResults(app.documents, hits), PassageSeparator))
    ensures |hits| == 0 ==> messages[|messages| - 1] == Message(System, ContextPrefix + NoResults)
    ensures |outputs| == |tokens|
    ensures forall i :: 0 <= i < |outputs| ==> outputs[i] == Concat(tokens[..i + 1])
  {
    messages := BuildMessages(message, history, systemMessage, SearchResults(app.documents, hits));
    outputs := StreamResponse(tokens);
  }
}
