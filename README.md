# Verified model of the retrieval-augmented chat app

The app answers questions about a PDF (a pilot's guide). At start-up it splits the PDF into one
document per page, embeds the pages and builds a vector index. On each chat turn it retrieves the
pages closest to the user's message. It then builds a message list from a fixed system prompt, the
chat history, the user's message and the retrieved passages, and streams the model's answer back
piece by piece.

The PDF reader, the sentence-embedding model, the vector index and the language-model client are
foreign libraries. Here they become inputs:

- the PDF is the sequence of its page texts;
- a search is the index row it returns (positions into the document list);
- a model answer is the sequence of streamed tokens.

What remains is the app's own list and string logic, modelled in `app.dfy` (module `App`):

- `MyApp` is a class whose `documents` field `LoadPdf` resets and then appends to, page by page.
  Its specification is the function `Segment`.
- `SearchResults` is the list comprehension and fallback of `search_documents`. It follows
  Python's list indexing, so a negative index counts from the end.
- `BuildMessages` builds the message list with a loop over the history. Its specification uses
  `HistoryMessages`, which appends, pair by pair, the messages the helper `TurnMessages` gives for
  one history pair. That function is proved equal to an independent reading: the truthy strings
  of all user and assistant turns, in order.
- `StreamResponse` accumulates the streamed tokens with a loop. Its specification is the helper
  function `Concat` (the text after `response += token` for each token in turn), which is proved
  equal to `"".join`.
- `Respond` puts one chat turn together.

## Model

| member | source | states |
|---|---|---|
| App.Segment | app.py:23-27 | one record per page, in page order: record i has page number i+1 and that page's text, empty text included |
| App.SegmentRoundTrip | app.py:24-27 | reading the texts back out of the records gives exactly the page texts (no page dropped, added or reordered) |
| App.MyApp.LoadPdf | app.py:20-27 | the documents afterwards are `Segment(pages)`, whatever was stored before (the list is reset, then filled) |
| App.MyApp.constructor | app.py:13-17 | a new app holds the documents of the given pages |
| App.SearchResults | app.py:38-44 | never empty; an empty index row gives exactly `["No relevant documents found."]`; otherwise one passage per index, in the row's order, passage j the content of the document the j-th index selects (negative indices count from the end) |
| App.SearchLoadedPages | app.py:43-44 | after loading, passage j is the text of the page that the j-th index selects, and an index of -1 gives the last page's text |
| App.Join | app.py:69 | `"\n".join`: a single passage is kept verbatim, no passages give the empty string, and the length is the total of the parts plus one separator between each pair of neighbours |
| App.JoinAppend | app.py:69 | joining one more passage adds exactly one separator and then that passage, so no separator is added after the last passage and the joined text ends with the last passage itself |
| App.HistoryMessages | app.py:59-63 | every history message has the user or assistant role and non-empty content |
| App.HistoryIsSpokenUtterances | app.py:59-63 | the history messages are exactly the truthy user and assistant strings of the history, pair by pair, user before assistant, each with its role |
| App.HistoryLength | app.py:59-63 | the number of history messages is the number of truthy user and assistant strings |
| App.BuildMessages | app.py:56-70 | the list is the hard-coded system prompt (the `system_message` argument is ignored), then the history messages, then the user's message, then a system message holding `"Relevant documents: "` followed by the passages joined by `"\n"`; length 1 + truthy count + 2; system role only at the two ends |
| App.StreamResponse | app.py:72-82 | one output per token; output i is the concatenation of tokens 0..i, so the first output is the first token and the last is the concatenation of the whole stream |
| App.ConcatIsJoin | app.py:72-81 | accumulating the tokens with `+=` gives the same text as `"".join` of the tokens |
| App.ConcatPrefix | app.py:81-82 | the text accumulated after fewer tokens is a prefix of the text accumulated after more |
| App.StreamOutputsGrow | app.py:82 | each streamed output is a prefix of every later one |
| App.Respond | app.py:48-82 | one chat turn: the message list starts with the system prompt, holds exactly the history messages in the middle (no system message there), and ends with the user's message and the context of the retrieved passages (the no-results sentinel when the index row is empty); the streamed outputs are the running concatenations of the tokens |

## Left out

- PDF opening and text extraction with PyMuPDF (app.py:22, 25-26): the page texts are the input of `LoadPdf`.
- The embedding model and the vector index: `build_vector_db` (app.py:30-36) and the query embedding and L2 search of `search_documents` (app.py:40-42). These are foreign code over floating-point vectors. The index row the search returns is the input of `SearchResults`, and the `embeddings` and `index` fields of the app are not modelled.
- SearchResults: an index outside Python's valid range for the document list (below -len or at least len) would raise IndexError in the app; the model requires every index to lie in that range. The vector index pads its row with -1 when asked for more neighbours than it holds; the model follows Python and maps such an index to the last page, but it does not model when the padding happens.
- The language-model call (app.py:73-79) is a network stream: its tokens are the input of `StreamResponse`. A token of `None` would make `+=` fail in the app; the model's tokens are always strings.
- The `max_tokens`, `temperature` and `top_p` arguments of `respond` and the hard-coded sampling values (app.py:52-54, 75-78) do not change the app's own logic and are not parameters of the model.
- Turn: history entries are modelled as pairs of strings, as typed; a `None` entry is falsy like the empty string, and both are dropped the same way.
- `respond` is a generator. The model returns the whole list of yielded values at once, so it does not capture the interleaving of yields with the caller.
- The Gradio interface, the example questions and the launch (app.py:84-106), the `print` logging (app.py:28, 36), the module-level client and app instances (app.py:9, 46), and the hard-coded PDF path (app.py:17).
