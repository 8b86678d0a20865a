/** The web-search screen (components/SearchView.tsx). */
module SearchView {
  import opened Wrappers
  import opened Types
  import opened JsSemantics
  import opened GeminiService
  import opened Grounding

  /** The error shown when the grounded request fails. */
  const SEARCH_FAILED := "Failed to perform search. Please try again."

  /** `{ uri: chunk.web?.uri, title: chunk.web?.title }`. */
  function WebCitation(chunk: GroundingChunk): (c: Citation)
    ensures chunk.web.None? ==> c.uri.None? && c.title.None?
    ensures chunk.web.Some? ==> c.uri == chunk.web.value.uri && c.title == chunk.web.value.title
  {
    if chunk.web.Some? then Citation(chunk.web.value.uri, chunk.web.value.title) else Citation(None, None)
  }

  /** The sources of a search answer: each chunk's web uri and title, only those with a uri. */
  function WebSources(chunks: seq<GroundingChunk>): (r: seq<GroundingSource>)
    ensures |r| <= |chunks|
    ensures forall k :: 0 <= k < |r| ==> r[k].uri != ""
  {
    KeepLinked(seq(|chunks|, i requires 0 <= i < |chunks| => WebCitation(chunks[i])))
  }

  /** A single chunk gives one source exactly when its web uri is non-empty. */
  lemma WebSourceOfChunk(chunk: GroundingChunk)
    ensures WebSources([chunk])
         == if chunk.web.Some? && Truthy(chunk.web.value.uri)
            then [GroundingSource(chunk.web.value.uri.value, chunk.web.value.title)]
            else []
  {
    assert seq(1, i requires 0 <= i < 1 => WebCitation([chunk][i])) == [WebCitation(chunk)];
  }

  /** Sources keep the order of their chunks; with WebSourceOfChunk this fixes WebSources. */
  lemma WebSourcesAppend(a: seq<GroundingChunk>, b: seq<GroundingChunk>)
    ensures WebSources(a + b) == WebSources(a) + WebSources(b)
  {
    var ca := seq(|a|, i requires 0 <= i < |a| => WebCitation(a[i]));
    var cb := seq(|b|, i requires 0 <= i < |b| => WebCitation(b[i]));
    assert seq(|a + b|, i requires 0 <= i < |a + b| => WebCitation((a + b)[i])) == ca + cb;
    KeepLinkedAppend(ca, cb);
  }

  /** A response without grounding chunks yields an empty source list, not a failure. */
  lemma NoChunksNoSources(response: GenerateContentResponse)
    requires response.candidates.None? || response.candidates == Some([])
    ensures WebSources(ChunksOf(response)) == []
  {
  }

  class SearchView {
    var prompt: string
    var isLoading: bool
    var result: Option<GroundedResult>
    var error: Option<string>

    /** A result and an error are never shown together, and neither is while loading. */
    ghost predicate Valid()
      reads this
    {
      && !(result.Some? && error.Some?)
      && (isLoading ==> result.None? && error.None?)
    }

    constructor ()
      ensures Valid()
      ensures prompt == "" && !isLoading && result == None && error == None
    {
      prompt := "";
      isLoading := false;
      result := None;
      error := None;
    }

    /**
     * The part of `handleSubmit` before the request: a blank prompt does nothing; otherwise
     * loading starts and the previous result and error are cleared.
     */
    method Start() returns (started: bool)
      modifies this
      ensures started <==> !IsBlank(old(prompt))
      ensures !started ==> unchanged(this)
      ensures started ==> prompt == old(prompt) && isLoading && result == None && error == None
    {
      var blank := TrimsToEmpty(prompt);
      if blank {
        return false;
      }
      isLoading := true;
      result := None;
      error := None;
      return true;
    }

    /**
     * The part of `handleSubmit` after the request: a reply becomes the result with its web
     * sources; a failure becomes the fixed error; loading ends either way.
     */
    method Finish(reply: Result<GenerateContentResponse>)
      modifies this
      ensures prompt == old(prompt) && !isLoading
      ensures reply.Ok? ==> result == Some(GroundedResult(reply.value.text, WebSources(ChunksOf(reply.value))))
      ensures reply.Ok? ==> error == old(error)
      ensures reply.Err? ==> error == Some(SEARCH_FAILED) && result == old(result)
    {
      if reply.Ok? {
        var response := reply.value;
        var sources := WebSources(ChunksOf(response));
        result := Some(GroundedResult(response.text, sources));
      } else {
        error := Some(SEARCH_FAILED);
      }
      isLoading := false;
    }

    /**
     * `handleSubmit`: for a non-blank prompt, one search request for that prompt, after which
     * exactly one of result and error is set and loading has ended.
     */
    method Submit(reply: Result<GenerateContentResponse>) returns (request: Option<GroundedRequest>)
      requires Valid()
      modifies this
      ensures Valid()
      ensures IsBlank(old(prompt)) ==> request == None && unchanged(this)
      ensures !IsBlank(old(prompt)) ==> request == Some(SearchRequest(old(prompt)))
      ensures !IsBlank(old(prompt)) ==> !isLoading && prompt == old(prompt)
      ensures !IsBlank(old(prompt)) ==> (result.Some? <==> reply.Ok?) && (error.Some? <==> reply.Err?)
      ensures !IsBlank(old(prompt)) && reply.Ok? ==>
        result == Some(GroundedResult(reply.value.text, WebSources(ChunksOf(reply.value))))
      ensures !IsBlank(old(prompt)) && reply.Err? ==> error == Some(SEARCH_FAILED)
    {
      var started := Start();
      if !started {
        return None;
      }
      request := Some(SearchRequest(prompt));
      Finish(reply);
    }
  }
}
