/** The maps-search screen and its geolocation callbacks (components/MapsView.tsx). */
module MapsView {
  import opened Wrappers
  import opened Types
  import opened JsSemantics
  import opened GeminiService
  import opened Grounding

  /** The error shown when the grounded request fails. */
  const MAPS_FAILED := "Failed to perform search. Please try again."

  /** `maps?.placeAnswerSources?.reviewSnippets?.[0]`. */
  function FirstSnippet(place: MapsChunk): (r: Option<ReviewSnippet>)
    ensures r.Some? <==>
      && place.placeAnswerSources.Some?
      && place.placeAnswerSources.value.reviewSnippets.Some?
      && |place.placeAnswerSources.value.reviewSnippets.value| > 0
    ensures r.Some? ==> r.value == place.placeAnswerSources.value.reviewSnippets.value[0]
  {
    if place.placeAnswerSources.Some?
       && place.placeAnswerSources.value.reviewSnippets.Some?
       && |place.placeAnswerSources.value.reviewSnippets.value| > 0
    then Some(place.placeAnswerSources.value.reviewSnippets.value[0])
    else None
  }

  /**
   * The citation of a place chunk: the place's own uri, or else the first review snippet's;
   * the title falls back the same way, on its own, whatever happened to the uri.
   */
  function MapsCitation(chunk: GroundingChunk): (c: Citation)
    ensures chunk.maps.None? ==> c == Citation(None, None)
    ensures chunk.maps.Some? && Truthy(chunk.maps.value.uri) ==> c.uri == chunk.maps.value.uri
    ensures chunk.maps.Some? && !Truthy(chunk.maps.value.uri) ==>
      c.uri == (var s := FirstSnippet(chunk.maps.value); if s.Some? then s.value.uri else None)
    ensures chunk.maps.Some? && Truthy(chunk.maps.value.title) ==> c.title == chunk.maps.value.title
    ensures chunk.maps.Some? && !Truthy(chunk.maps.value.title) ==>
      c.title == (var s := FirstSnippet(chunk.maps.value); if s.Some? then s.value.title else None)
  {
    if chunk.maps.None? then Citation(None, None)
    else
      var place := chunk.maps.value;
      var snippet := FirstSnippet(place);
      Citation(Or(place.uri, if snippet.Some? then snippet.value.uri else None),
               Or(place.title, if snippet.Some? then snippet.value.title else None))
  }

  /** The sources of a maps answer: each chunk's citation, only those with a uri. */
  function MapsSources(chunks: seq<GroundingChunk>): (r: seq<GroundingSource>)
    ensures |r| <= |chunks|
    ensures forall k :: 0 <= k < |r| ==> r[k].uri != ""
  {
    KeepLinked(seq(|chunks|, i requires 0 <= i < |chunks| => MapsCitation(chunks[i])))
  }

  /** A single chunk gives one source exactly when it or its first snippet has a uri. */
  lemma MapsSourceOfChunk(chunk: GroundingChunk)
    ensures MapsSources([chunk])
         == if Linked(MapsCitation(chunk)) then [AsSource(MapsCitation(chunk))] else []
    ensures |MapsSources([chunk])| == 1 <==>
      chunk.maps.Some? &&
      (Truthy(chunk.maps.value.uri) ||
       (FirstSnippet(chunk.maps.value).Some? && Truthy(FirstSnippet(chunk.maps.value).value.uri)))
  {
    assert seq(1, i requires 0 <= i < 1 => MapsCitation([chunk][i])) == [MapsCitation(chunk)];
  }

  /** Sources keep the order of their chunks; with MapsSourceOfChunk this fixes MapsSources. */
  lemma MapsSourcesAppend(a: seq<GroundingChunk>, b: seq<GroundingChunk>)
    ensures MapsSources(a + b) == MapsSources(a) + MapsSources(b)
  {
    var ca := seq(|a|, i requires 0 <= i < |a| => MapsCitation(a[i]));
    var cb := seq(|b|, i requires 0 <= i < |b| => MapsCitation(b[i]));
    assert seq(|a + b|, i requires 0 <= i < |a + b| => MapsCitation((a + b)[i])) == ca + cb;
    KeepLinkedAppend(ca, cb);
  }

  class MapsView {
    var prompt: string
    var isLoading: bool
    var result: Option<GroundedResult>
    var error: Option<string>
    var location: Option<LatLng>
    var locationStatus: string

    /** The screen starts with no location and the locale's "getting location" status. */
    constructor (gettingLocation: string)
      ensures prompt == "" && !isLoading && result == None && error == None
      ensures location == None && locationStatus == gettingLocation
    {
      prompt := "";
      isLoading := false;
      result := None;
      error := None;
      location := None;
      locationStatus := gettingLocation;
    }

    /** The geolocation success callback: the position is stored and the status cleared. */
    method OnPosition(position: LatLng)
      modifies this
      ensures location == Some(position) && locationStatus == ""
      ensures prompt == old(prompt) && isLoading == old(isLoading)
      ensures result == old(result) && error == old(error)
    {
      location := Some(position);
      locationStatus := "";
    }

    /**
     * The geolocation error callback: status and error both show the locale's location
     * error; the location is left as it was.
     */
    method OnPositionError(locationError: string)
      modifies this
      ensures locationStatus == locationError && error == Some(locationError)
      ensures location == old(location)
      ensures prompt == old(prompt) && isLoading == old(isLoading) && result == old(result)
    {
      locationStatus := locationError;
      error := Some(locationError);
    }

    /**
     * The part of `handleSubmit` before the request: nothing happens unless the prompt is
     * non-blank and a location is known; otherwise loading starts, result and error cleared.
     */
    method Start() returns (started: bool)
      modifies this
      ensures started <==> !IsBlank(old(prompt)) && old(location).Some?
      ensures !started ==> unchanged(this)
      ensures started ==> isLoading && result == None && error == None
      ensures started ==> prompt == old(prompt) && location == old(location) && locationStatus == old(locationStatus)
    {
      var blank := TrimsToEmpty(prompt);
      if blank || location.None? {
        return false;
      }
      isLoading := true;
      result := None;
      error := None;
      return true;
    }

    /**
     * The part of `handleSubmit` after the request: a reply becomes the result with its place
     * sources; a failure becomes the fixed error; loading ends either way.
     */
    method Finish(reply: Result<GenerateContentResponse>)
      modifies this
      ensures prompt == old(prompt) && location == old(location) && locationStatus == old(locationStatus)
      ensures !isLoading
      ensures reply.Ok? ==> result == Some(GroundedResult(reply.value.text, MapsSources(ChunksOf(reply.value))))
      ensures reply.Ok? ==> error == old(error)
      ensures reply.Err? ==> error == Some(MAPS_FAILED) && result == old(result)
    {
      if reply.Ok? {
        var response := reply.value;
        var sources := MapsSources(ChunksOf(response));
        result := Some(GroundedResult(response.text, sources));
      } else {
        error := Some(MAPS_FAILED);
      }
      isLoading := false;
    }

    /**
     * `handleSubmit`: with a non-blank prompt and a known location, one maps request carrying
     * that location unchanged, after which exactly one of result and error is set and loading
     * has ended; otherwise nothing changes and no request is made.
     */
    method Submit(reply: Result<GenerateContentResponse>) returns (request: Option<GroundedRequest>)
      modifies this
      ensures IsBlank(old(prompt)) || old(location).None? ==> request == None && unchanged(this)
      ensures !IsBlank(old(prompt)) && old(location).Some? ==>
        request == Some(MapsRequest(old(prompt), old(location).value))
      ensures !IsBlank(old(prompt)) && old(location).Some? ==>
        && !isLoading && prompt == old(prompt) && location == old(location) && locationStatus == old(locationStatus)
        && (result.Some? <==> reply.Ok?) && (error.Some? <==> reply.Err?)
      ensures !IsBlank(old(prompt)) && old(location).Some? && reply.Ok? ==>
        result == Some(GroundedResult(reply.value.text, MapsSources(ChunksOf(reply.value))))
      ensures !IsBlank(old(prompt)) && old(location).Some? && reply.Err? ==> error == Some(MAPS_FAILED)
    {
      var started := Start();
      if !started {
        return None;
      }
      request := Some(MapsRequest(prompt, location.value));
      Finish(reply);
    }
  }
}
