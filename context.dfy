/** Building the prompt of one turn: the knowledge-base and web-search context blocks,
    the history window, and the final human message (the body of `ChatBot.get_response`
    in chatbot_backend.py before the model is called). */
module Context {
  import opened Basics

  /** The three LangChain message classes the backend uses. */
  datatype Role = System | Human | AI

  datatype Message = Message(role: Role, content: string)

  const SYSTEM_INSTRUCTION: string := "You are a helpful customer service assistant. Use the provided context to answer questions accurately. If you don't know something, say so."
  /** How many history messages go into a prompt. */
  const HISTORY_WINDOW: nat := 10
  /** How many chunks the similarity search is asked for. */
  const KB_TOP_K: nat := 2
  /** How many characters of a web snippet are kept. */
  const SNIPPET_LIMIT: nat := 200
  const KB_HEADER: string := "Knowledge Base Context:\n"
  const WEB_HEADER: string := "Web Search Results:\n"
  const BULLET: string := "- "
  const CONTEXT_LEAD: string := "Context:\n"
  const QUESTION_LEAD: string := "\n\nQuestion: "

  /** The `content` entry of one search result: missing, a string, or a value that
      cannot be sliced (None, a number), whose `[:200]` raises. */
  datatype Content = Absent | Text(text: string) | Unsliceable

  /** One element of the list the search tool returns. */
  datatype SearchResult = Dict(content: Content) | NonDict

  /** What invoking the search tool does: it raises, or it returns a list. */
  datatype SearchOutcome = Raised(error: string) | Results(items: seq<SearchResult>)

  /** The knowledge-base block: the retrieved page contents joined by newlines under their
      label, or no block when the lookup found nothing. */
  function KnowledgePart(docs: seq<string>): (part: Option<string>)
    ensures part.None? <==> docs == []
    ensures part.Some? ==> StartsWith(part.value, KB_HEADER)
  {
    if docs == [] then None else Some(KB_HEADER + Join("\n", docs))
  }

  /** Every retrieved page content appears in the knowledge-base block. */
  lemma KnowledgePartHoldsDocs(docs: seq<string>, k: nat)
    requires k < |docs|
    ensures KnowledgePart(docs).Some?
    ensures Occurs(docs[k], KnowledgePart(docs).value)
  {
    JoinPlacesPart("\n", docs, k);
    OccursAtShift(docs[k], KB_HEADER, Join("\n", docs), Offset("\n", docs, k));
  }

  /** The `isinstance(result, dict)` filter: the content entry of every dict result, in order. */
  function DictContents(items: seq<SearchResult>): (cs: seq<Content>)
    ensures |cs| <= |items|
    ensures forall c :: c in cs <==> Dict(c) in items
  {
    if items == [] then []
    else
      var rest := DictContents(items[1..]);
      assert items == [items[0]] + items[1..];
      match items[0]
      case Dict(c) => [c] + rest
      case NonDict => rest
  }

  /** The filter keeps a dict result's content and drops anything else. */
  lemma DictContentsSingle(c: Content)
    ensures DictContents([Dict(c)]) == [c]
    ensures DictContents([NonDict]) == []
  {
  }

  /** The filter works result by result: it keeps the order of the results and keeps every
      dict result's content, repeats included. */
  lemma {:induction false} DictContentsAppend(a: seq<SearchResult>, b: seq<SearchResult>)
    ensures DictContents(a + b) == DictContents(a) + DictContents(b)
  {
    if a != [] {
      DictContentsAppend(a[1..], b);
      assert (a + b)[1..] == a[1..] + b;
    } else {
      assert a + b == b;
    }
  }

  /** What `result.get('content', '')` slices: a missing entry reads as the empty string. */
  function TextOf(c: Content): string
  {
    match c
    case Text(t) => t
    case _ => ""
  }

  /** One bullet line: the marker and at most 200 characters from the front of the snippet. */
  function Bullet(text: string): (line: string)
    ensures StartsWith(line, BULLET)
    ensures |line| == |BULLET| + Min(SNIPPET_LIMIT, |text|)
    ensures line == BULLET + text[..|line| - |BULLET|]
    ensures |text| <= SNIPPET_LIMIT ==> line == BULLET + text
  {
    BULLET + Take(text, SNIPPET_LIMIT)
  }

  /** The list comprehension of bullet lines, or None when slicing some content raises. */
  function Bullets(cs: seq<Content>): (lines: Option<seq<string>>)
    ensures lines.Some? <==> Unsliceable !in cs
    ensures lines.Some? ==> |lines.value| == |cs|
    ensures lines.Some? ==> forall i :: 0 <= i < |cs| ==> lines.value[i] == Bullet(TextOf(cs[i]))
  {
    if cs == [] then Some([])
    else if cs[0] == Unsliceable then None
    else
      match Bullets(cs[1..])
      case None => None
      case Some(rest) => Some([Bullet(TextOf(cs[0]))] + rest)
  }

  /** The web-search block of the `try` in get_response: nothing when the tool raised, returned
      an empty list, or slicing a snippet raised, or when no dict result is left. */
  function WebPart(outcome: SearchOutcome): (part: Option<string>)
    ensures outcome.Raised? ==> part.None?
    ensures part.Some? ==> StartsWith(part.value, WEB_HEADER)
  {
    match outcome
    case Raised(_) => None
    case Results(items) =>
      if items == [] then None
      else
        match Bullets(DictContents(items))
        case None => None
        case Some(lines) =>
          var joined := Join("\n", lines);
          if joined == "" then None else Some(WEB_HEADER + joined)
  }

  /** The web block is there exactly when the tool returned at least one dict result and
      every dict result's content can be sliced. */
  lemma {:induction false} WebPartPresent(outcome: SearchOutcome)
    ensures WebPart(outcome).Some? <==>
      outcome.Results? && (exists c :: Dict(c) in outcome.items) && Dict(Unsliceable) !in outcome.items
  {
    if outcome.Results? {
      var items := outcome.items;
      var cs := DictContents(items);
      if cs == [] {
        assert forall c :: Dict(c) !in items by {
          forall c ensures Dict(c) !in items {
            assert c !in cs;
          }
        }
      } else {
        assert Dict(cs[0]) in items;
        var lines := Bullets(cs);
        if lines.Some? {
          assert items != [];
          JoinEmptyIff("\n", lines.value);
          assert WebPart(outcome) == Some(WEB_HEADER + Join("\n", lines.value));
        } else {
          assert Dict(Unsliceable) in items;
          assert WebPart(outcome).None?;
        }
      }
    }
  }

  /** Every line of the web block is a bullet of at most 202 characters, one per dict result. */
  lemma WebPartLines(items: seq<SearchResult>)
    requires WebPart(Results(items)).Some?
    ensures Bullets(DictContents(items)).Some?
    ensures var lines := Bullets(DictContents(items)).value;
      && WebPart(Results(items)).value == WEB_HEADER + Join("\n", lines)
      && |lines| == |DictContents(items)|
      && forall i :: 0 <= i < |lines| ==> StartsWith(lines[i], BULLET) && |lines[i]| <= |BULLET| + SNIPPET_LIMIT
  {
  }

  /** Every bullet line reaches the web block. */
  lemma WebPartHoldsLine(items: seq<SearchResult>, k: nat)
    requires WebPart(Results(items)).Some?
    requires k < |DictContents(items)|
    ensures Bullets(DictContents(items)).Some?
    ensures Occurs(Bullet(TextOf(DictContents(items)[k])), WebPart(Results(items)).value)
  {
    WebPartLines(items);
    var lines := Bullets(DictContents(items)).value;
    JoinPlacesPart("\n", lines, k);
    OccursAtShift(lines[k], WEB_HEADER, Join("\n", lines), Offset("\n", lines, k));
  }

  /** The first 200 characters of every string snippet reach the web block. */
  lemma WebPartHoldsSnippet(items: seq<SearchResult>, text: string)
    requires Dict(Text(text)) in items && Dict(Unsliceable) !in items
    ensures WebPart(Results(items)).Some?
    ensures Occurs(BULLET + Take(text, SNIPPET_LIMIT), WebPart(Results(items)).value)
  {
    WebPartPresent(Results(items));
    var cs := DictContents(items);
    assert Text(text) in cs;
    var k :| 0 <= k < |cs| && cs[k] == Text(text);
    WebPartHoldsLine(items, k);
  }

  /** The `context_parts` list: the knowledge-base block first, then the web block. */
  function ContextParts(kb: Option<string>, web: Option<string>): (parts: seq<string>)
    ensures |parts| <= 2
    ensures |parts| == (if kb.Some? then 1 else 0) + (if web.Some? then 1 else 0)
    ensures kb.Some? ==> parts[0] == kb.value
    ensures web.Some? ==> parts[|parts| - 1] == web.value
  {
    (if kb.Some? then [kb.value] else []) + (if web.Some? then [web.value] else [])
  }

  /** The content of the final human message: the raw query when there is no context,
      otherwise the context blocks followed by the question. */
  function UserContent(parts: seq<string>, query: string): (content: string)
    ensures parts == [] ==> content == query
    ensures parts != [] ==> StartsWith(content, CONTEXT_LEAD) && EndsWith(content, QUESTION_LEAD + query)
    ensures EndsWith(content, query)
  {
    if parts == [] then query
    else CONTEXT_LEAD + Join("\n\n", parts) + QUESTION_LEAD + query
  }

  /** With both blocks the human message reads: context lead, knowledge block, blank line,
      web block, question. */
  lemma TwoBlockLayout(kb: string, web: string, query: string)
    ensures UserContent(ContextParts(Some(kb), Some(web)), query)
         == CONTEXT_LEAD + kb + "\n\n" + web + QUESTION_LEAD + query
  {
    assert ContextParts(Some(kb), Some(web)) == [kb, web];
    assert Join("\n\n", [kb, web]) == kb + "\n\n" + Join("\n\n", [web]);
  }

  /** With a single block, of either kind, the human message reads: context lead, the
      block, question. */
  lemma OneBlockLayout(block: string, query: string)
    ensures UserContent(ContextParts(Some(block), None), query) == CONTEXT_LEAD + block + QUESTION_LEAD + query
    ensures UserContent(ContextParts(None, Some(block)), query) == CONTEXT_LEAD + block + QUESTION_LEAD + query
  {
    assert ContextParts(Some(block), None) == [block];
    assert ContextParts(None, Some(block)) == [block];
  }

  /** Every context block reaches the final human message unchanged. */
  lemma {:induction false} UserContentHoldsPart(parts: seq<string>, query: string, k: nat)
    requires k < |parts|
    ensures Occurs(parts[k], UserContent(parts, query))
  {
    var joined := Join("\n\n", parts);
    var o := |CONTEXT_LEAD| + Offset("\n\n", parts, k);
    JoinPlacesPart("\n\n", parts, k);
    OccursAtShift(parts[k], CONTEXT_LEAD, joined, Offset("\n\n", parts, k));
    OccursAtExtend(parts[k], CONTEXT_LEAD + joined, QUESTION_LEAD, o);
    OccursAtExtend(parts[k], CONTEXT_LEAD + joined + QUESTION_LEAD, query, o);
  }

  /** The message list sent to the model: the system instruction, the last ten history
      messages in their original order, then one human message. */
  function AssembledPrompt(history: seq<Message>, parts: seq<string>, query: string): (prompt: seq<Message>)
    ensures |prompt| == 2 + Min(HISTORY_WINDOW, |history|)
    ensures prompt[0] == Message(System, SYSTEM_INSTRUCTION)
    ensures history == history[..|history| - (|prompt| - 2)] + prompt[1..|prompt| - 1]
    ensures prompt[|prompt| - 1] == Message(Human, UserContent(parts, query))
  {
    [Message(System, SYSTEM_INSTRUCTION)] + Recent(history, HISTORY_WINDOW)
      + [Message(Human, UserContent(parts, query))]
  }
}
