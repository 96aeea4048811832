/** The `ChatBot` session object of chatbot_backend.py: its configuration rules, the
    knowledge store it fills, and `get_response`, which assembles a prompt, calls the model
    and records a successful exchange in the history.

    The services the class talks to are parameters: the text splitter, the similarity search
    of the vector store, the web-search tool and the language model are functions from what
    they are given to what they return (or raise). */
module ChatBackend {
  import opened Basics
  import opened Context

  /** What `similarity_search` on the store does: returns page contents, or raises. */
  datatype Lookup = Hits(contents: seq<string>) | LookupError(error: string)

  /** What `llm.invoke` does: returns a reply, or raises with a message. */
  datatype Completion = Reply(text: string) | ModelError(error: string)

  /** The outcome of the constructor: a ready session, or the configuration error it raises. */
  datatype Startup = Ready(bot: ChatBot) | ConfigError(message: string)

  const MISSING_MODEL_KEY: string := "GROQ_API_KEY not found in environment variables"
  const GENERATION_ERROR: string := "Error generating response: "

  /** Python truthiness of an environment lookup: unset and empty both read as false. */
  predicate Truthy(key: Option<string>)
  {
    key.Some? && key.value != ""
  }

  /** A history made of whole exchanges: a human message, then the model's reply, repeated. */
  predicate IsTranscript(history: seq<Message>)
    decreases |history|
  {
    history == [] ||
    (|history| >= 2 && history[0].role == Human && history[1].role == AI && IsTranscript(history[2..]))
  }

  /** The chunks a store holds; an absent store holds none. */
  function Indexed(store: Option<seq<string>>): seq<string>
  {
    if store.Some? then store.value else []
  }

  /** The knowledge-base step of get_response: no lookup without a store; a lookup that raises
      escapes (it is outside the `try`); otherwise the block built from what it found. */
  function KnowledgeStep(store: Option<seq<string>>, query: string,
                         similar: (seq<string>, string, nat) -> Lookup): (r: Result<Option<string>>)
    ensures store.None? ==> r == Ok(None)
    ensures r.Err? <==> store.Some? && similar(store.value, query, KB_TOP_K).LookupError?
    ensures r.Ok? && r.value.Some? ==> store.Some? && similar(store.value, query, KB_TOP_K).contents != []
  {
    match store
    case None => Ok(None)
    case Some(chunks) =>
      match similar(chunks, query, KB_TOP_K)
      case LookupError(e) => Err(e)
      case Hits(docs) => Ok(KnowledgePart(docs))
  }

  /** The web step: the tool is invoked only when search is asked for and configured. */
  function WebStep(useSearch: bool, hasSearchTool: bool, query: string,
                   webSearch: string -> SearchOutcome): (web: Option<string>)
    ensures web.Some? ==> useSearch && hasSearchTool
    ensures web.Some? ==> StartsWith(web.value, WEB_HEADER)
  {
    if useSearch && hasSearchTool then WebPart(webSearch(query)) else None
  }

  /** The prompt get_response sends to the model, or the error that escapes before it. */
  function Assemble(history: seq<Message>, store: Option<seq<string>>, hasSearchTool: bool,
                    query: string, useSearch: bool,
                    similar: (seq<string>, string, nat) -> Lookup,
                    webSearch: string -> SearchOutcome): (r: Result<seq<Message>>)
    ensures r.Err? <==> store.Some? && similar(store.value, query, KB_TOP_K).LookupError?
    ensures r.Ok? ==> |r.value| == 2 + Min(HISTORY_WINDOW, |history|)
    ensures r.Ok? ==> r.value[0] == Message(System, SYSTEM_INSTRUCTION)
    ensures r.Ok? ==> r.value[|r.value| - 1].role == Human && EndsWith(r.value[|r.value| - 1].content, query)
  {
    match KnowledgeStep(store, query, similar)
    case Err(e) => Err(e)
    case Ok(kb) =>
      Ok(AssembledPrompt(history, ContextParts(kb, WebStep(useSearch, hasSearchTool, query, webSearch)), query))
  }

  class ChatBot {
    /** Every message exchanged so far, oldest first; it only grows. */
    var chatHistory: seq<Message>
    /** The indexed chunks, or None before the first non-empty knowledge load. */
    var vectorStore: Option<seq<string>>
    /** Whether a web-search tool was set up (a search key was configured). */
    const hasSearchTool: bool

    predicate Valid()
      reads this
    {
      IsTranscript(chatHistory)
    }

    /** The part of `__init__` after the model key check, with `_setup_search_tool`. */
    constructor (searchKey: Option<string>)
      ensures Valid()
      ensures chatHistory == [] && vectorStore == None
      ensures hasSearchTool <==> Truthy(searchKey)
    {
      chatHistory := [];
      vectorStore := None;
      hasSearchTool := Truthy(searchKey);
    }

    /** `ChatBot()`: fails with a configuration error when the model key is missing or empty. */
    static method Create(modelKey: Option<string>, searchKey: Option<string>) returns (r: Startup)
      ensures r.ConfigError? <==> !Truthy(modelKey)
      ensures r.ConfigError? ==> r.message == MISSING_MODEL_KEY
      ensures r.Ready? ==> fresh(r.bot) && r.bot.Valid()
      ensures r.Ready? ==> r.bot.chatHistory == [] && r.bot.vectorStore == None
      ensures r.Ready? ==> (r.bot.hasSearchTool <==> Truthy(searchKey))
    {
      if !Truthy(modelKey) {
        return ConfigError(MISSING_MODEL_KEY);
      }
      var bot := new ChatBot(searchKey);
      r := Ready(bot);
    }

    /** `create_knowledge_base`: an empty list changes nothing; otherwise the chunks the splitter
        makes of the texts are indexed, creating the store on the first load. */
    method CreateKnowledgeBase(texts: seq<string>, split: seq<string> -> seq<string>)
      requires Valid()
      modifies this
      ensures Valid()
      ensures chatHistory == old(chatHistory)
      ensures texts == [] ==> vectorStore == old(vectorStore)
      ensures texts != [] ==> vectorStore == Some(Indexed(old(vectorStore)) + split(texts))
      ensures old(vectorStore).Some? ==> vectorStore.Some? && old(vectorStore).value <= vectorStore.value
    {
      if texts == [] {
        return;
      }
      var splits := split(texts);
      if vectorStore.None? {
        assert Indexed(vectorStore) + splits == splits;
        vectorStore := Some(splits);
      } else {
        vectorStore := Some(vectorStore.value + splits);
      }
    }

    /** The prompt-building half of `get_response`, accumulating the context parts and the
        messages the way the source does. Reads the session; changes nothing. */
    method AssemblePrompt(query: string, useSearch: bool,
                          similar: (seq<string>, string, nat) -> Lookup,
                          webSearch: string -> SearchOutcome) returns (r: Result<seq<Message>>)
      ensures r == Assemble(chatHistory, vectorStore, hasSearchTool, query, useSearch, similar, webSearch)
    {
      var contextParts: seq<string> := [];
      ghost var kb: Option<string> := None;
      if vectorStore.Some? {
        var docs := similar(vectorStore.value, query, KB_TOP_K);
        if docs.LookupError? {
          return Err(docs.error);
        }
        if docs.contents != [] {
          var kbContext := Join("\n", docs.contents);
          contextParts := contextParts + [KB_HEADER + kbContext];
          kb := Some(KB_HEADER + kbContext);
        }
      }
      assert KnowledgeStep(vectorStore, query, similar) == Ok(kb);
      ghost var web: Option<string> := None;
      if useSearch && hasSearchTool {
        match webSearch(query)
        case Raised(_) =>
          // caught and logged; the context parts stay as the knowledge step left them
        case Results(searchResults) =>
          if searchResults != [] {
            var lines := Bullets(DictContents(searchResults));
            if lines.Some? {
              var searchContext := Join("\n", lines.value);
              if searchContext != "" {
                contextParts := contextParts + [WEB_HEADER + searchContext];
                web := Some(WEB_HEADER + searchContext);
              }
            }
          }
      }
      assert web == WebStep(useSearch, hasSearchTool, query, webSearch);
      assert contextParts == ContextParts(kb, web);
      var messages := [Message(System, SYSTEM_INSTRUCTION)];
      messages := messages + Recent(chatHistory, HISTORY_WINDOW);
      if contextParts != [] {
        var contextMessage := Join("\n\n", contextParts);
        messages := messages + [Message(Human, CONTEXT_LEAD + contextMessage + QUESTION_LEAD + query)];
      } else {
        messages := messages + [Message(Human, query)];
      }
      assert messages == AssembledPrompt(chatHistory, contextParts, query);
      r := Ok(messages);
    }

    /** The `try` at the end of `get_response`: the model is sent the prompt; on a reply the raw
        query and the reply are appended to the history and the reply is returned; when the
        model raises the history is left alone and an error text is returned. */
    method Respond(prompt: seq<Message>, query: string, llm: seq<Message> -> Completion) returns (r: string)
      requires Valid()
      modifies this
      ensures Valid()
      ensures vectorStore == old(vectorStore)
      ensures llm(prompt).Reply? ==>
        r == llm(prompt).text
        && chatHistory == old(chatHistory) + [Message(Human, query)] + [Message(AI, llm(prompt).text)]
      ensures llm(prompt).ModelError? ==>
        r == GENERATION_ERROR + llm(prompt).error && chatHistory == old(chatHistory)
    {
      var response := llm(prompt);
      if response.Reply? {
        TranscriptGrows(chatHistory, query, response.text);
        chatHistory := chatHistory + [Message(Human, query)];
        chatHistory := chatHistory + [Message(AI, response.text)];
        r := response.text;
      } else {
        r := GENERATION_ERROR + response.error;
      }
    }

    /** `get_response`: the prompt is assembled and answered; a raising lookup escapes before
        the model is called, with the history untouched. */
    method GetResponse(query: string, useSearch: bool,
                       similar: (seq<string>, string, nat) -> Lookup,
                       webSearch: string -> SearchOutcome,
                       llm: seq<Message> -> Completion) returns (r: Result<string>)
      requires Valid()
      modifies this
      ensures Valid()
      ensures vectorStore == old(vectorStore)
      ensures var a := Assemble(old(chatHistory), old(vectorStore), hasSearchTool, query, useSearch, similar, webSearch);
        a.Err? ==> r == Err(a.error) && chatHistory == old(chatHistory)
      ensures var a := Assemble(old(chatHistory), old(vectorStore), hasSearchTool, query, useSearch, similar, webSearch);
        a.Ok? && llm(a.value).Reply? ==>
          r == Ok(llm(a.value).text)
          && chatHistory == old(chatHistory) + [Message(Human, query)] + [Message(AI, llm(a.value).text)]
      ensures var a := Assemble(old(chatHistory), old(vectorStore), hasSearchTool, query, useSearch, similar, webSearch);
        a.Ok? && llm(a.value).ModelError? ==>
          r == Ok(GENERATION_ERROR + llm(a.value).error) && chatHistory == old(chatHistory)
    {
      var assembled := AssemblePrompt(query, useSearch, similar, webSearch);
      if assembled.Err? {
        return Err(assembled.error);
      }
      var reply := Respond(assembled.value, query, llm);
      r := Ok(reply);
    }
  }

  /** Appending one exchange keeps a history a transcript. */
  lemma {:induction false} TranscriptGrows(history: seq<Message>, query: string, reply: string)
    requires IsTranscript(history)
    ensures IsTranscript(history + [Message(Human, query)] + [Message(AI, reply)])
    decreases |history|
  {
    var exchange := [Message(Human, query)] + [Message(AI, reply)];
    if history == [] {
      assert history + [Message(Human, query)] + [Message(AI, reply)] == exchange;
      assert exchange[2..] == [];
    } else {
      TranscriptGrows(history[2..], query, reply);
      assert (history + [Message(Human, query)] + [Message(AI, reply)])[2..]
          == history[2..] + [Message(Human, query)] + [Message(AI, reply)];
    }
  }

  /** In a transcript every even position holds a human message and every odd one a reply,
      and the length is even. */
  lemma {:induction false} TranscriptRoles(history: seq<Message>, i: nat)
    requires IsTranscript(history)
    ensures |history| % 2 == 0
    ensures i < |history| ==> history[i].role == (if i % 2 == 0 then Human else AI)
    decreases |history|
  {
    if history != [] {
      TranscriptRoles(history[2..], if i >= 2 then i - 2 else 0);
      if 2 <= i < |history| {
        assert history[i] == history[2..][i - 2];
      }
    }
  }

  /** Dropping whole exchanges from the front of a transcript leaves a transcript. */
  lemma {:induction false} TranscriptDrop(history: seq<Message>, k: nat)
    requires IsTranscript(history)
    requires k % 2 == 0 && k <= |history|
    ensures IsTranscript(history[k..])
    decreases k
  {
    if k > 0 {
      TranscriptDrop(history[2..], k - 2);
      assert history[2..][k - 2..] == history[k..];
    }
  }

  /** The ten-message window of a transcript is itself a transcript: it starts with a human
      message and never splits an exchange. */
  lemma TranscriptWindow(history: seq<Message>)
    requires IsTranscript(history)
    ensures IsTranscript(Recent(history, HISTORY_WINDOW))
  {
    TranscriptRoles(history, 0);
    var start := |history| - Min(HISTORY_WINDOW, |history|);
    TranscriptDrop(history, start);
  }

  /** The prompt built from a transcript is well formed: the system instruction, whole
      exchanges of the history window, then the new human message. */
  lemma PromptAlternates(history: seq<Message>, parts: seq<string>, query: string)
    requires IsTranscript(history)
    ensures var prompt := AssembledPrompt(history, parts, query);
      && prompt[0].role == System
      && IsTranscript(prompt[1..|prompt| - 1])
      && prompt[|prompt| - 1].role == Human
  {
    TranscriptWindow(history);
    var prompt := AssembledPrompt(history, parts, query);
    assert prompt[1..|prompt| - 1] == Recent(history, HISTORY_WINDOW);
  }

  /** When the session has a store and the lookup finds page contents, each of them reaches
      the human message the model is sent. */
  lemma {:induction false} RetrievedDocsReachModel(history: seq<Message>, chunks: seq<string>, hasSearchTool: bool,
                                                   query: string, useSearch: bool,
                                                   similar: (seq<string>, string, nat) -> Lookup,
                                                   webSearch: string -> SearchOutcome, k: nat)
    requires similar(chunks, query, KB_TOP_K).Hits?
    requires k < |similar(chunks, query, KB_TOP_K).contents|
    ensures var a := Assemble(history, Some(chunks), hasSearchTool, query, useSearch, similar, webSearch);
      a.Ok? && Occurs(similar(chunks, query, KB_TOP_K).contents[k], a.value[|a.value| - 1].content)
  {
    var docs := similar(chunks, query, KB_TOP_K).contents;
    KnowledgePartHoldsDocs(docs, k);
    var kb := KnowledgePart(docs).value;
    var parts := ContextParts(Some(kb), WebStep(useSearch, hasSearchTool, query, webSearch));
    var prompt := AssembledPrompt(history, parts, query);
    assert Assemble(history, Some(chunks), hasSearchTool, query, useSearch, similar, webSearch) == Ok(prompt);
    var content := UserContent(parts, query);
    assert prompt[|prompt| - 1].content == content;
    UserContentHoldsPart(parts, query, 0);
    var i: nat :| OccursAt(docs[k], kb, i);
    var j: nat :| OccursAt(kb, content, j);
    OccursAtTrans(docs[k], kb, content, i, j);
  }

  /** Without a configured search tool, or without asking for search, the model is never sent
      a web block: the prompt is what the knowledge step alone makes. */
  lemma NoSearchNoWebBlock(history: seq<Message>, store: Option<seq<string>>, hasSearchTool: bool,
                           query: string, useSearch: bool,
                           similar: (seq<string>, string, nat) -> Lookup,
                           webSearch: string -> SearchOutcome)
    requires !useSearch || !hasSearchTool
    requires KnowledgeStep(store, query, similar).Ok?
    ensures Assemble(history, store, hasSearchTool, query, useSearch, similar, webSearch)
         == Ok(AssembledPrompt(history, ContextParts(KnowledgeStep(store, query, similar).value, None), query))
  {
  }

  /** A search tool that raises leaves the prompt exactly as if search had not been asked for. */
  lemma SearchFailureDegrades(history: seq<Message>, store: Option<seq<string>>,
                              query: string, similar: (seq<string>, string, nat) -> Lookup,
                              webSearch: string -> SearchOutcome)
    requires webSearch(query).Raised?
    ensures Assemble(history, store, true, query, true, similar, webSearch)
         == Assemble(history, store, true, query, false, similar, webSearch)
  {
  }

  /** With no store and no web block the model is sent the raw query as the last message. */
  lemma NoContextSendsRawQuery(history: seq<Message>, hasSearchTool: bool, query: string, useSearch: bool,
                               similar: (seq<string>, string, nat) -> Lookup,
                               webSearch: string -> SearchOutcome)
    requires WebStep(useSearch, hasSearchTool, query, webSearch).None?
    ensures var a := Assemble(history, None, hasSearchTool, query, useSearch, similar, webSearch);
      a.Ok? && a.value[|a.value| - 1] == Message(Human, query)
  {
  }
}
