/** Retrieval-augmented generation: search the plain connector's collection, fill the prompt
    template with the question and the results, and ask the language model. */
module Rag {

  import opened Wrappers
  import opened PyValue
  import opened PyText
  import opened VectorStore
  import opened TextSplitter
  import opened Connector

  /** The first line of the template: it switches the model's reasoning trace off. */
  const NoThink: string := "nothink/"
  /** The template up to the question, after its surrounding whitespace is stripped. */
  const PromptHead: string :=
    NoThink + "\n        You're a pdf research assistant. Answer the QUESTION based on the CONTEXT from the Qdrant database.\n        Use only the facts from the CONTEXT when answering the QUESTION.\n\n        QUESTION: "
  /** The template between the question and the context, up to the "x" placeholder line. */
  const ContextLine: string := "\n\n        CONTEXT: x"
  /** The indentation before the context. */
  const ContextIndent: string := "\n        "

  /** `build_prompt(query, search_results)`: the template with both fields substituted once (the
      substituted text is not rescanned), then stripped. `context` is `str(search_results)`. */
  function BuildPrompt(query: string, context: string): (prompt: string)
    ensures StartsWith(prompt, NoThink) && Trimmed(prompt)
  {
    PromptStartsWithNoThink(query, context);
    Strip(PromptHead + query + ContextLine + (ContextIndent + context))
  }

  /** The stripped prompt keeps the template's head, so it opens with the "nothink/" marker. */
  lemma PromptStartsWithNoThink(query: string, context: string)
    ensures StartsWith(Strip(PromptHead + query + ContextLine + (ContextIndent + context)), NoThink)
  {
    TemplateFacts();
    StripFilled(PromptHead, query, ContextLine, ContextIndent + context);
    var kept := PromptHead + query + ContextLine;
    assert kept[..|NoThink|] == PromptHead[..|NoThink|];
  }

  /** The facts about the template's pieces that the proofs use. */
  lemma TemplateFacts()
    ensures |PromptHead| >= |NoThink| && PromptHead[..|NoThink|] == NoThink && !IsSpace(PromptHead[0])
    ensures ContextLine != [] && !IsSpace(ContextLine[|ContextLine| - 1])
    ensures AllSpace(ContextIndent)
  {
    assert PromptHead[..|NoThink|] == NoThink;
  }

  /** Stripping `head + query + line + rest`, where `head` starts and `line` ends with a
      non-space, keeps everything up to `line` and right-strips `rest`. */
  lemma StripFilled(head: string, query: string, line: string, rest: string)
    requires head != [] && !IsSpace(head[0])
    requires line != [] && !IsSpace(line[|line| - 1])
    ensures Strip(head + query + line + rest) == head + query + line + RStrip(rest)
  {
    var a := head + query + line;
    RStripParts(a, rest);
    var t := a + RStrip(rest);
    assert t[0] == head[0];
    LStripVisible(t);
  }

  /** Right-stripping `a + b` where `a` ends in a non-space keeps all of `a`. */
  lemma RStripParts(a: string, b: string)
    requires a != [] && !IsSpace(a[|a| - 1])
    ensures RStrip(a + b) == a + RStrip(b)
  {
    if AllSpace(b) {
      RStripAppendBlank(a, b);
      TrailingSpacesUnique(a, 0);
      assert RStrip(b) == [] by {
        TrailingSpacesUnique(b, |b|);
      }
    } else {
      RStripAppendVisible(a, b);
    }
  }

  /** A string that starts with a non-space has nothing to left-strip. */
  lemma LStripVisible(s: string)
    requires s != [] && !IsSpace(s[0])
    ensures LStrip(s) == s
  {
  }

  /** The prompt is exactly the template's head, the query verbatim, the "CONTEXT: x" line and,
      when there is any, the context with only its trailing whitespace removed. */
  lemma BuildPromptShape(query: string, context: string)
    ensures !AllSpace(context) ==>
              BuildPrompt(query, context) == PromptHead + query + ContextLine + ContextIndent + RStrip(context)
    ensures AllSpace(context) ==> BuildPrompt(query, context) == PromptHead + query + ContextLine
  {
    TemplateFacts();
    StripFilled(PromptHead, query, ContextLine, ContextIndent + context);
    if AllSpace(context) {
      assert AllSpace(ContextIndent + context);
      assert RStrip(ContextIndent + context) == [] by {
        TrailingSpacesUnique(ContextIndent + context, |ContextIndent + context|);
      }
    } else {
      RStripAppendVisible(ContextIndent, context);
    }
  }

  /** The request `rag` sends to the model server. */
  datatype GenerateCall = GenerateCall(model: string, prompt: string)

  /** `rag(query, model)`: a connector with the default collection and embedding model searches
      for `query` with the default limit of 5; the prompt is built from the same query and the
      rendered results; the caller's model name is passed through. `render` is `str()` of the
      result list; `dim` and `split` are the embedder's dimension and the splitter. */
  method AnswerQuery(server: Server, query: string, model: string, dim: nat, split: Splitter,
                     rank: Ranking, render: seq<Row> -> string)
    returns (r: Result<GenerateCall, PyError>)
    ensures DefaultCollectionName !in server.collections ==> r == Err(CollectionNotFound(DefaultCollectionName))
    ensures DefaultCollectionName in server.collections ==>
              var hits := rank(server.collections, Search(DefaultCollectionName, query, DefaultSearchLimit));
              match ShapeHits(hits)
              case Err(e) => r == Err(e)
              case Ok(rows) => r == Ok(GenerateCall(model, BuildPrompt(query, render(rows))))
  {
    var connector := new QdrantConnector(server, DefaultCollectionName, DefaultEmbeddingModel, dim, split);
    var found := connector.SearchSimilar(query, rank, DefaultSearchLimit);
    if found.Err? {
      return Err(found.error);
    }
    var prompt := BuildPrompt(query, render(found.value));
    r := Ok(GenerateCall(model, prompt));
  }
}
