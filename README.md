# Chat backend: session, prompt assembly and command parse

This project models the `ChatBot` class of `chatbot_backend.py`, the backend of a customer-service chat assistant. A session holds three things:

- the chat history, a list of human and AI messages that only grows;
- an optional vector store of knowledge chunks, absent until the first non-empty knowledge load;
- an optional web-search tool, present only when a search key is configured.

`get_response` answers one question, in this order:

1. It gathers up to two context blocks:
   - a knowledge-base block from the two most similar chunks;
   - a web-search block of bullet snippets, each cut to 200 characters.
2. It builds the prompt: the fixed system instruction, the last ten history messages, and one human message. That message carries the context blocks and the question, or just the question when there is no context.
3. It calls the language model.
4. Only when the model replies does it append the raw question and the reply to the history. When the model raises, it returns an error text and leaves the history as it was.

The project also models the command-line loop's parse of one input line: `quit`, or a `search:` prefix that switches web search on.

Files:

- `basics.dfy`: module `Basics`. Option and Result wrappers, and the Python list and string operations the backend uses: `s[:n]`, `xs[-n:]` and `sep.join`. Also the notion of one string occurring inside another.
- `context.dfy`: module `Context`. The pure pieces of the prompt: the two context blocks, the final human message, and the message list.
- `chatbot.dfy`: module `ChatBackend`. The `ChatBot` class, whose methods update `chatHistory` and `vectorStore` in place. Also the specification function `Assemble` for the prompt, and the lemmas about the history and the prompt.
- `cli.dfy`: module `Cli`. Python's `str.lower` and `str.strip` as far as the parse needs them, and the parse itself.

The services the class calls appear as function-typed parameters. Each one is a map from what it is given to what it returns or raises:

- the text splitter;
- the vector store's similarity search;
- the web-search tool;
- the language model.

The contracts can therefore say exactly what each service is called with and how its answer is used.

The similarity search (`chatbot_backend.py:68-72`) runs outside any `try`, so an exception raised there escapes `get_response`. In the model such a lookup makes `Assemble` and `GetResponse` return `Err`, and the history is left untouched.

## Model

| member | source | states |
|---|---|---|
| Basics.Take | chatbot_backend.py:79 | `s[:n]`: the first `min(n, len(s))` elements of `s`, a prefix of `s` |
| Basics.Recent | chatbot_backend.py:91 | `xs[-n:]`: `min(n, len(xs))` elements that are a suffix of `xs`, in their original order |
| Basics.Join | chatbot_backend.py:71 | `sep.join(parts)` is empty for no parts, and otherwise begins with the first part and ends with the last; its exact layout is stated by `JoinPlacesPart`, `JoinPlacesSep` and `JoinLength` |
| Basics.JoinPlacesPart | chatbot_backend.py:95 | every part sits unchanged inside the joined string, at the offset given by the lengths of the parts and separators before it |
| Basics.OffsetNext | chatbot_backend.py:71 | in a join, each part after the first begins one part and one separator after the previous part begins |
| Basics.JoinPlacesSep | chatbot_backend.py:71 | the separator sits right after every part but the last |
| Basics.JoinLength | chatbot_backend.py:71 | the joined string ends where the last part ends, so with the two lemmas above it holds nothing but the parts and the separators between them |
| Basics.JoinEmptyIff | chatbot_backend.py:79-80 | a join of non-empty parts is empty exactly when there are no parts |
| Context.KnowledgePart | chatbot_backend.py:70-72 | the knowledge block is produced exactly when the lookup returned some page content, and it starts with `Knowledge Base Context:\n` |
| Context.KnowledgePartHoldsDocs | chatbot_backend.py:71-72 | every retrieved page content occurs in the knowledge block |
| Context.DictContents | chatbot_backend.py:79 | the `isinstance(result, dict)` filter keeps exactly the contents of the dict results and drops the others |
| Context.DictContentsSingle | chatbot_backend.py:79 | one dict result gives its content and one non-dict result gives nothing |
| Context.DictContentsAppend | chatbot_backend.py:79 | the filter of two lists is the filter of the first followed by the filter of the second, so it keeps the order of the results and each dict result's content, repeats included |
| Context.Bullet | chatbot_backend.py:79 | a web line is `- ` followed by the first `min(200, len)` characters of the snippet; a snippet of at most 200 characters is kept whole |
| Context.Bullets | chatbot_backend.py:79 | the lines exist exactly when no dict content is unsliceable; there is one line per dict result, the `i`-th being the bullet of the `i`-th content, so a missing content gives `- ` |
| Context.WebPart | chatbot_backend.py:76-83 | a raising search gives no web block; a produced block starts with `Web Search Results:\n` |
| Context.WebPartPresent | chatbot_backend.py:76-83 | the web block exists if and only if the search returned at least one dict result and no dict content is unsliceable |
| Context.WebPartLines | chatbot_backend.py:79-81 | the web block is its header plus the newline join of one bullet per dict result, each starting with `- ` and at most 202 characters long |
| Context.WebPartHoldsLine | chatbot_backend.py:79-81 | the bullet of every dict result occurs in the web block |
| Context.WebPartHoldsSnippet | chatbot_backend.py:79-81 | when a dict result has a string snippet and no dict content is unsliceable, the web block exists and holds `- ` followed by the first 200 characters of the snippet |
| Context.ContextParts | chatbot_backend.py:65-81 | there are at most two context parts, one per block produced, and the knowledge block comes before the web block |
| Context.UserContent | chatbot_backend.py:94-98 | without context parts the human message is the raw query; with parts it starts with `Context:\n` and ends with `\n\nQuestion: ` and the query |
| Context.TwoBlockLayout | chatbot_backend.py:94-96 | with both blocks the human message is `Context:\n`, the knowledge block, a blank line, the web block, `\n\nQuestion: ` and the query |
| Context.OneBlockLayout | chatbot_backend.py:94-96 | with only a knowledge block, or only a web block, the human message is `Context:\n`, the block, `\n\nQuestion: ` and the query |
| Context.UserContentHoldsPart | chatbot_backend.py:94-96 | every context part occurs unchanged in the human message |
| Context.AssembledPrompt | chatbot_backend.py:86-98 | the prompt has `2 + min(10, len(history))` messages: the system instruction, the last ten history messages as a suffix of the history in order, then the human message |
| ChatBackend.KnowledgeStep | chatbot_backend.py:68-72 | no lookup without a store; the step fails exactly when the lookup raises; a block is produced only when a store exists and the lookup returned something |
| ChatBackend.WebStep | chatbot_backend.py:75-83 | a web block can appear only when search is asked for and a search tool is configured |
| ChatBackend.Assemble | chatbot_backend.py:65-98 | prompt assembly fails exactly when the lookup raises; otherwise the prompt has `2 + min(10, len(history))` messages, the system instruction first and a human message ending in the query last |
| ChatBackend.ChatBot.constructor | chatbot_backend.py:30-38 | a new session has an empty history and no store, and has a search tool exactly when the search key is non-empty |
| ChatBackend.ChatBot.Create | chatbot_backend.py:16-38 | construction fails with `GROQ_API_KEY not found in environment variables` exactly when the model key is unset or empty; otherwise the session is fresh and empty |
| ChatBackend.ChatBot.CreateKnowledgeBase | chatbot_backend.py:40-55 | an empty list changes nothing; otherwise the splitter's chunks are indexed, creating the store on the first load and appending after it; a store never goes away and only grows; the history is untouched |
| ChatBackend.ChatBot.AssemblePrompt | chatbot_backend.py:65-98 | accumulating the context parts and the messages step by step yields exactly the specified prompt, or the lookup's error; the session is not changed |
| ChatBackend.ChatBot.Respond | chatbot_backend.py:100-110 | on a reply the reply is returned and the raw query and then the reply are appended to the history; when the model raises, `Error generating response: ` plus its message is returned and the history is left as it was; the store never changes and the history stays a sequence of whole exchanges |
| ChatBackend.ChatBot.GetResponse | chatbot_backend.py:57-110 | a raising lookup returns its error and leaves the history; otherwise the model gets the specified prompt, a reply is returned and recorded as one more exchange, and a raising model gives `Error generating response: ` plus its message with the history untouched; the store never changes |
| ChatBackend.TranscriptGrows | chatbot_backend.py:105-106 | appending a human message and then a reply keeps a history of whole exchanges |
| ChatBackend.TranscriptRoles | chatbot_backend.py:105-106 | in such a history the length is even, human messages sit at even positions and replies at odd ones |
| ChatBackend.TranscriptDrop | chatbot_backend.py:91 | dropping an even number of messages from the front leaves whole exchanges |
| ChatBackend.TranscriptWindow | chatbot_backend.py:91 | the ten-message window of a session's history never splits an exchange |
| ChatBackend.PromptAlternates | chatbot_backend.py:86-98 | the prompt is the system message, whole exchanges, then the new human message |
| ChatBackend.RetrievedDocsReachModel | chatbot_backend.py:68-96 | every page content the lookup returns occurs in the human message sent to the model |
| ChatBackend.NoSearchNoWebBlock | chatbot_backend.py:75 | without a search request or without a search tool, the prompt is what the knowledge step alone makes |
| ChatBackend.SearchFailureDegrades | chatbot_backend.py:76-83 | a raising search gives the same prompt as not searching, and the request goes on |
| ChatBackend.NoContextSendsRawQuery | chatbot_backend.py:97-98 | with no store and no web block, the last message is the raw query as a human message |
| Cli.LowerChar | chatbot_backend.py:127 | ASCII capitals map to their small letters, and every other character is kept |
| Cli.Lower | chatbot_backend.py:127 | lower-casing keeps the length, maps each character, and leaves no ASCII capital |
| Cli.LeadingSpace | chatbot_backend.py:133 | the scan from a position stops at the first non-whitespace character, and everything it passes is whitespace |
| Cli.KeptEnd | chatbot_backend.py:133 | the scan back from a length stops just after the last non-whitespace character, and everything it passes is whitespace |
| Cli.TrimStart | chatbot_backend.py:133 | the result is a suffix of the input; everything dropped is whitespace, and the result does not start with whitespace |
| Cli.TrimEnd | chatbot_backend.py:133 | the result is a prefix of the input; everything dropped is whitespace, and the result does not end with whitespace |
| Cli.Strip | chatbot_backend.py:133 | the stripped text has no whitespace at either end and is no longer than the input |
| Cli.StripKeepsMiddle | chatbot_backend.py:133 | the stripped text is the contiguous piece of the input that starts after the leading whitespace |
| Cli.StripDropsOnlySpace | chatbot_backend.py:133 | everything before and after the kept piece is whitespace |
| Cli.StripIdempotent | chatbot_backend.py:133 | stripping twice is stripping once |
| Cli.StripAfterPrefix | chatbot_backend.py:133 | what strip keeps of the text after a prefix is a piece of the whole line, just past the prefix and the leading whitespace |
| Cli.Interpret | chatbot_backend.py:127-133 | the line quits exactly when it lower-cases to `quit`; a search request has a `search:` prefix in some letter case; any other line is asked unchanged, without search |
| Cli.SearchPrefixSelectsSearch | chatbot_backend.py:131-133 | every line with a `search:` prefix in any letter case asks, with search, the rest of the line stripped |
| Cli.SearchQueryFromInput | chatbot_backend.py:131-133 | a line with a `search:` prefix in any letter case asks with search, and its question has no whitespace at either end and is a contiguous piece of the line |

## Left out

- The Streamlit page in app.py is user interface and is not modelled. Its reset button calls `chatbot.memory.clear()`, but `ChatBot` has no `memory` attribute, so the backend has no clear operation and none is modelled.
- Text splitting (`RecursiveCharacterTextSplitter`, chunk size 1000, overlap 200) is library code whose algorithm is not visible. It is the parameter `split`, and no chunking property is claimed.
- The FAISS index, the HuggingFace embeddings and `similarity_search` involve floating-point similarity in foreign code. The store is modelled as the list of chunks it holds, and the lookup as the parameter `similar`, called with the chunks, the query and `k = 2`. Nothing is claimed about the lookup returning at most two contents.
- ChatBackend.ChatBot.CreateKnowledgeBase: when the store is absent and the splitter returns no chunks, `FAISS.from_documents` raises inside the library. The model instead creates an empty store.
- The Groq model call and the Tavily web search are network I/O. They are the parameters `llm` and `webSearch`, which return a result or the message of the exception they raised. The model name, the temperature 0.7 and `max_results=3` are configuration passed to those services and are not modelled.
- Reading the environment and the `.env` file is I/O. The two keys are inputs of `ChatBot.Create`. The `print` of a search error and the `input`/`print` loop of the command line are I/O too; only the parse of one line is modelled.
- Context.Bullets: a `content` entry that is sliceable but not a string (a list, say) would be formatted by Python as the printed form of its first 200 elements. The model only has string contents, missing contents and unsliceable ones.
- Cli.Lower: only ASCII capitals are lower-cased. Python's `str.lower` also maps other letters, some of them to two characters. No character outside ASCII lower-cases to a string that could complete `quit` or `search:` at its place. The nearest case is U+0130, which lower-cases to `i` followed by U+0307: it starts with the `i` of `quit`, but the combining dot that follows makes the comparison fail. So the quit and search decisions of `Cli.Interpret` are those of the code.
- Basics.Recent: it requires a positive count. Python's `xs[-0:]` would return the whole list, but the backend only uses a count of 10.
