# The Smiths expert chatbot — retrieval graph and lyrics corpus, in Dafny

This project models the deterministic core of a chat assistant about The Smiths.
A question is routed by a language-model classifier either to a vector-similarity
search over a scraped lyrics corpus (node `retrieve`) or to a Wikipedia lookup
(node `wiki_search`). The node `generate_final_answer` then asks a language
model to answer from the retrieved documents. `run_app` streams the graph and
keeps the last evidence text and the last answer. A separate batch job scrapes
the lyrics site and turns each song page into a `Document` with a title derived
from its URL.

Every hosted service is an oracle function the model is parameterised by:

- the OpenAI router classification, as `Services.classify(key, question)`;
- the OpenAI completion, as `Services.complete(key, prompt)`;
- the Astra DB similarity search, as `Services.similaritySearch(store, question)`;
- the Wikipedia lookup, as `Services.wikiLookup(question)`;
- the HTTP fetch plus BeautifulSoup parse of the menu page, as `readMenu(url)`;
- `scrape_lyrics(url)`, as `scrape(url)`.

Files:

- `wrappers.dfy`: `Option` and `Result`.
- `pystr.dfy`: the Python `str` operations the code relies on: `join`, `split` on one character, `replace`, `title`.
- `documents.dfy`: langchain's `Document` and the newline-join of page contents.
- `graph.dfy`: `langgraph_implementation.py`. It holds the node and edge table, the routing, the three node functions as state updates, the graph interpreter, the module globals as the class `Globals`, and `run_app`'s fold as a method with loop invariants.
- `lyrics.dfy`: `utils.py`. It holds `get_song_links`, the song-title derivation, and `scrape_lyrics_to_langchain_documents`.

Facts about the code that shape the model:

- `retrieve` adds no source tag to the documents it returns: they carry whatever metadata they were stored with, which the model leaves to `similaritySearch` (langgraph_implementation.py:65-66).
- `wiki_search` always returns exactly one document, with metadata `{"source": "wikipedia"}` (langgraph_implementation.py:70-72).
- Using the store before initialisation raises `ValueError` with the message at langgraph_implementation.py:63.
- `route_question` returns `None` for a label other than the two it knows (langgraph_implementation.py:81-84). The classifier's schema admits only those two labels (langgraph_implementation.py:43), so the model's `InvalidBranch` error is never produced (`Graph.Branch`).
- `run_app` looks a stream key up among node names; node names identify nodes (`Graph.NodeNamesDistinct`), so the model matches on nodes.
- One `Document` shape is used throughout. The code also has a tuple branch (`doc[2]`) when it builds the context and a `str(doc)` branch in `run_app`; both apply only to values that are not `Document`s, which no node produces.

## Model

| member | source | states |
|---|---|---|
| `PyStr.Split` | utils.py:39 | `s.split(c)` yields at least one piece and no piece contains `c` |
| `PyStr.JoinSplit` | utils.py:39 | joining the pieces of a split with the separator restores the string |
| `PyStr.SplitJoin` | langgraph_implementation.py:92-95 | splitting a newline-join restores the parts, in order, when no part holds the separator |
| `PyStr.Join` | langgraph_implementation.py:92-95 | `sep.join(parts)`: the parts in order with `sep` between neighbours; its length, placement and split round trip are the rows below |
| `PyStr.JoinLength` | langgraph_implementation.py:92-95 | the join of no parts (an empty retrieval) is the empty string; otherwise a join is as long as all parts plus one separator between each pair |
| `PyStr.JoinPlacement` | langgraph_implementation.py:92-95 | part `k` sits in the join at the total length of the earlier parts plus one separator each, and a separator follows every part but the last, whatever the parts contain |
| `PyStr.LastPiece` | utils.py:39 | `split('/')[-1]` contains no `/` |
| `PyStr.LastPieceIsSuffix` | utils.py:39 | the last piece is the suffix after the last `/`, or the whole string when there is none |
| `PyStr.LastPieceAfter` | utils.py:39 | the last piece of `s + "/" + t` is `t` when `t` has no `/` |
| `PyStr.Replace` | utils.py:39 | `s.replace(pattern, replacement)` with a replacement no longer than the pattern never makes the string longer |
| `PyStr.ReplaceCharacters` | utils.py:39 | every character of a `replace` result comes from the input or the replacement |
| `PyStr.ReplaceCharPointwise` | utils.py:39 | replacing `-` by a space keeps the length and changes exactly the hyphens |
| `PyStr.ReplaceNoPair` | utils.py:39 | a string in which the pattern's first two characters never occur side by side is unchanged |
| `PyStr.ReplaceSkip` | utils.py:39 | a prefix without the pattern's first character is copied and scanning continues after it |
| `PyStr.ReplaceHit` | utils.py:39 | a leading occurrence is replaced and scanning resumes after it (non-overlapping, left to right) |
| `PyStr.ReplaceAbsent` | utils.py:39 | a string with no occurrence of the pattern anywhere is returned unchanged |
| `PyStr.NoOccurrenceAppend` | utils.py:39 | two pattern-free strings joined stay pattern-free when the second starts with a character the pattern lacks |
| `PyStr.Title` | utils.py:39 | `str.title()` keeps the length and copies every non-letter |
| `PyStr.TitlePointwise` | utils.py:39 | `str.title()` keeps the length and non-letters; a letter is upper case exactly when it does not follow a letter, and lower case otherwise |
| `Documents.JoinContents` | langgraph_implementation.py:92-95 | `"\n".join` of the page contents; what it holds is stated by the two rows below |
| `Documents.JoinContentsPlacement` | langgraph_implementation.py:92-95 | document `k`'s content sits in the joined text after the earlier contents and one newline each, followed by a newline unless it is the last, whatever the contents hold |
| `Documents.JoinContentsRecoversOrder` | langgraph_implementation.py:92-95 | when no page content holds a newline, splitting the joined text on newlines gives the contents back in order |
| `Graph.NodeNamesDistinct` | langgraph_implementation.py:113-115 | node names identify nodes, both directions |
| `Graph.RouteQuestion` | langgraph_implementation.py:81-84 | label `wiki_search` routes to `wiki_search`, `vectorstore` routes to `retrieve`, anything else to no route (both directions) |
| `Graph.RouteIsTotalAndExclusive` | langgraph_implementation.py:116-123 | each of the two schema labels reaches exactly its own fetch node through the path map |
| `Graph.Edge` | langgraph_implementation.py:124-126 | the unconditional edges leave exactly the fetch nodes and the generator, each one rank up |
| `Graph.Successors` | langgraph_implementation.py:116-126 | every declared edge, conditional or not, goes one rank up |
| `Graph.PathRanks` | langgraph_implementation.py:116-126 | along any walk of the graph the rank grows by one per step |
| `Graph.NoNodeVisitedTwice` | langgraph_implementation.py:116-126 | the graph has no cycles: no walk visits a node twice |
| `Graph.CompletePaths` | langgraph_implementation.py:116-126 | every walk from START to END is START, one fetch node, the generator, END |
| `Graph.Inputs` | langgraph_implementation.py:132 | the initial state holds the question and the API key, and no documents and no generation; `RunOutcome` states the whole run from it |
| `Graph.Merge` | langgraph_implementation.py:98-102 | a key present in a node's update replaces the state's value, an absent key keeps it, an empty update changes nothing, and the API key never changes |
| `Graph.Globals.constructor` | langgraph_implementation.py:18-20 | the three globals start unset, which satisfies the invariant `Valid` (all unset, or all on one store), and `retrieve` then fails with the not-initialised error |
| `Graph.Globals.InitializeCassandra` | langgraph_implementation.py:22-35 | from any prior state, sets store, index and retriever on one store with table `smiths_lyrics_new` and model `all-MiniLM-L6-v2`, so `Valid` holds; afterwards `retrieve` passes its guard |
| `Graph.RetrieveDocs` | langgraph_implementation.py:60-66 | fails exactly when the index is unset, with the code's `ValueError` message; otherwise it returns the search result with the question unchanged |
| `Graph.SearchWiki` | langgraph_implementation.py:68-72 | exactly one document, with the lookup text and source `wikipedia`, and the question unchanged |
| `Graph.Prompt` | langgraph_implementation.py:89-91 | the fixed prefix, then the context, then the question marker, then the question, at known offsets |
| `Graph.PromptInjective` | langgraph_implementation.py:89-97 | given the context's length, context and question are recoverable from the prompt |
| `Graph.PromptAmbiguous` | langgraph_implementation.py:89-97 | without that length they are not: a context or question holding `"\n\nInitial Question: "` gives the same prompt as a different pair |
| `Graph.GenerateAnswer` | langgraph_implementation.py:86-102 | sets only `generation` (the completion of the prompt over the newline-joined contents); question and documents are returned unchanged; no documents raises `KeyError` |
| `Graph.Branch` | langgraph_implementation.py:116-123 | the conditional edge out of START never fails: it picks `retrieve` for `vectorstore` and `wiki_search` otherwise |
| `Graph.Execute` | langgraph_implementation.py:116-126 | a successful execution walks the declared edges to END, one single-key stream output per node |
| `Graph.Run` | langgraph_implementation.py:131-135 | a successful stream is a walk from START to END |
| `Graph.ExecuteGenerator` | langgraph_implementation.py:86-102 | with documents in the state, the generator streams exactly its generation update and the run reaches END |
| `Graph.ExecuteFromFetch` | langgraph_implementation.py:60-126 | from the chosen fetch node the run fails only in `retrieve` before initialisation; otherwise it streams the fetch update, then the generation, and ends at END |
| `Graph.RunOutcome` | langgraph_implementation.py:60-126 | a run fails exactly when the vector store is chosen before initialisation, in `retrieve`; otherwise it streams the fetch update and then the generation, and ends with question, documents and answer |
| `Graph.RunVisitsOneFetchNode` | langgraph_implementation.py:116-126 | a run visits exactly the fetch node the classifier chose, then the generator, then END, with no node twice |
| `Graph.ToolResponseIsLastFetch` | langgraph_implementation.py:135-138 | `tool_response` is the newline-join of the documents of the last fetch output |
| `Graph.ToolResponseWithoutFetch` | langgraph_implementation.py:133-138 | `tool_response` stays `""` without a fetch output |
| `Graph.FinalAnswerIsLastGeneration` | langgraph_implementation.py:139-140 | `final_answer` is the generation of the last generator output |
| `Graph.FinalAnswerWithoutGeneration` | langgraph_implementation.py:134-140 | `final_answer` stays `""` without a generator output |
| `Graph.FlattenSplit` | langgraph_implementation.py:135-136 | the stream's items are each output's items, output after output |
| `Graph.FoldStep` | langgraph_implementation.py:135-140 | reading one more item changes `tool_response` only for a fetch item with documents and `final_answer` only for a generator item with a generation |
| `Graph.FirstUnreadable` | langgraph_implementation.py:135-141 | an unreadable item reached after only readable ones is the first unreadable item of the whole stream |
| `Graph.RunStreamIsReadable` | langgraph_implementation.py:131-141 | every item of a successful run's stream holds the key `run_app` reads; the last fetch item carries the generator's context and the last generator item its completion |
| `Graph.FoldOutputs` | langgraph_implementation.py:133-141 | the loop succeeds exactly when every fetch output has documents and every generator output a generation, and then returns the last tool response and the last answer; otherwise it raises `KeyError` for the first unreadable item |
| `Graph.RunApp` | langgraph_implementation.py:131-141 | `tool_response` is exactly the context the generator was given and `final_answer` its completion; the only failure is the uninitialised store |
| `Lyrics.Hrefs` | utils.py:30-31 | at most one href per anchor |
| `Lyrics.HrefsAppend` | utils.py:30-31 | the hrefs of two runs of anchors are those of the first followed by those of the second, so order and repeats are kept; one anchor gives its href, or nothing without one |
| `Lyrics.HrefsMembers` | utils.py:30-31 | an href is collected exactly when some anchor carries it |
| `Lyrics.SongLinks` | utils.py:28-31 | no menu div gives no links; otherwise one link per href, each starting with the base URL |
| `Lyrics.GetSongLinks` | utils.py:23-32 | each link is the base URL plus the href, in anchor order; no menu div gives no links |
| `Lyrics.SongName` | utils.py:39 | a song title has no `/` and no `-`, and is no longer than the last URL segment |
| `Lyrics.SongNameOfPage` | utils.py:39 | for every page `smiths-<slug>.htm` whose slug has no `/`, no `.` and no further `smiths-`, the title is the title-cased slug with every hyphen turned into a space: the prefix and the extension are removed before hyphens are replaced |
| `Lyrics.PageSegment` | utils.py:39 | `split('/')[-1]` of a song URL is its page name |
| `Lyrics.DropsPrefix` | utils.py:39 | `.replace('smiths-', '')` removes the leading prefix and nothing else |
| `Lyrics.DropsExtension` | utils.py:39 | `.replace('.htm', '')` removes the extension and nothing else |
| `Lyrics.SongNameExample` | utils.py:39 | `.../smiths-how-soon-is-now.htm` gives `How Soon Is Now` |
| `Lyrics.HasLyrics` | utils.py:41 | `if lyrics:` is Python truthiness of an optional string: some text other than the empty string; `KeptIndices` and `KeptIndicesComplete` use it to fix which links give documents |
| `Lyrics.SongDocument` | utils.py:42-45 | the page content is the lyrics; the metadata has exactly the keys `song_name` (the derived title) and `url` (the link) |
| `Lyrics.KeptIndices` | utils.py:38-41 | the kept positions are strictly increasing, in range, and each has lyrics |
| `Lyrics.KeptIndicesComplete` | utils.py:38-41 | every position whose scrape produced non-empty lyrics is kept |
| `Lyrics.SongDocumentsAreKept` | utils.py:37-46 | the documents built link by link are exactly the documents of the kept positions, in order |
| `Lyrics.ScrapeLyricsToDocuments` | utils.py:35-50 | one document per link whose scrape gave non-empty lyrics, in link order, with those lyrics, the link and the derived title; never more documents than links |

## Left out

- HTTP, HTML parsing, the OpenAI, Astra DB, HuggingFace and Wikipedia services: these are external and are oracle functions. The model does not capture their failures (network, credentials, context size), their non-determinism, or the Wikipedia 200-character cap, which the library enforces.
- `similarity_search` returning at most four documents: that bound is inside the library, so the search result is an arbitrary sequence.
- `store_documents_in_astradb` (utils.py:52-71): token-based chunking by `RecursiveCharacterTextSplitter` and the upload are library calls, and the count they return depends on them. It writes table `smiths_songs_all` (utils.py:66), while `initialize_cassandra` searches `smiths_lyrics_new` (langgraph_implementation.py:30), so as written the app's own ingestion does not feed retrieval. The model pins the table retrieval uses (`Graph.TableName`) and leaves the search results to the `similaritySearch` oracle.
- The `print` calls in `scrape_lyrics_to_langchain_documents`: console output.
- LangGraph's scheduler: the graph is executed from its declared edges, one node per step, which is how this acyclic, non-parallel graph runs.
- main.py is not part of this model. It holds the Streamlit UI, session flags, the chat transcript and the OpenAI connection probe.
- `PyStr.Title`: Python's `str.title` on non-ASCII cased characters (Unicode case tables) is not modelled; only ASCII letters count as cased.
- `PyStr.Replace`: an empty pattern is not modelled; the code only replaces non-empty literals. Its effect is stated through the scan lemmas (`ReplaceHit`, `ReplaceSkip`, `ReplaceAbsent`) rather than as one closed formula over all occurrences.
- Update in place of the module globals is modelled by the class `Graph.Globals`. `Graph.RunApp` reads the index global from it when the run happens, and the node functions receive that value as a parameter.
- `Documents.JoinContentsRecoversOrder` is stated only for page contents without newlines. Scraped lyrics hold newlines (utils.py:18), so for them the joined text does not split back into documents; `Documents.JoinContentsPlacement` states where each document sits for all contents.
- `Graph.PromptInjective` is stated only for contexts of equal length. A context or question holding the question marker makes the prompt ambiguous (`Graph.PromptAmbiguous`).
