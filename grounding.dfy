/**
 * What the search and maps views share in turning a grounded answer into a list of
 * sources: reading the citation chunks of the first candidate, and keeping only the
 * citations that have a uri (components/SearchView.tsx and components/MapsView.tsx).
 */
module Grounding {
  import opened Wrappers
  import opened Types
  import opened JsSemantics
  import opened GeminiService

  /** The `{ uri, title }` object a view builds from one chunk, before filtering. */
  datatype Citation = Citation(uri: Option<string>, title: Option<string>)

  /** What a grounded view shows once its request has succeeded. */
  datatype GroundedResult = GroundedResult(text: Option<string>, sources: seq<GroundingSource>)

  /**
   * `response.candidates?.[0]?.groundingMetadata?.groundingChunks || []`: any missing link in
   * the chain gives the empty list rather than an error.
   */
  function ChunksOf(response: GenerateContentResponse): (chunks: seq<GroundingChunk>)
    ensures chunks != [] ==> response.candidates.Some? && |response.candidates.value| > 0
    ensures chunks != [] ==> response.candidates.value[0].groundingMetadata.Some?
    ensures chunks != [] ==> response.candidates.value[0].groundingMetadata.value.groundingChunks == Some(chunks)
    ensures response.candidates.Some? && |response.candidates.value| > 0
            && response.candidates.value[0].groundingMetadata.Some?
            && response.candidates.value[0].groundingMetadata.value.groundingChunks.Some?
            ==> chunks == response.candidates.value[0].groundingMetadata.value.groundingChunks.value
  {
    if response.candidates.Some? && |response.candidates.value| > 0 then
      var candidate := response.candidates.value[0];
      if candidate.groundingMetadata.Some? && candidate.groundingMetadata.value.groundingChunks.Some?
      then candidate.groundingMetadata.value.groundingChunks.value
      else []
    else []
  }

  /** The filter `source => source.uri`: the citation has a non-empty uri. */
  predicate Linked(c: Citation) {
    Truthy(c.uri)
  }

  /** A kept citation as a source. */
  function AsSource(c: Citation): (s: GroundingSource)
    requires Linked(c)
    ensures Some(s.uri) == c.uri && s.title == c.title && s.uri != ""
  {
    GroundingSource(c.uri.value, c.title)
  }

  /** The citations that have a uri, in their original order. */
  function KeepLinked(cs: seq<Citation>): (r: seq<GroundingSource>)
    ensures |r| <= |cs|
    ensures forall k :: 0 <= k < |r| ==> r[k].uri != ""
    ensures |r| == |cs| <==> forall i :: 0 <= i < |cs| ==> Linked(cs[i])
  {
    if cs == [] then []
    else (if Linked(cs[0]) then [AsSource(cs[0])] else []) + KeepLinked(cs[1..])
  }

  /**
   * Filtering commutes with concatenation: a citation's fate depends on it alone, and the
   * kept ones stay in their original order.
   */
  lemma {:induction false} KeepLinkedAppend(a: seq<Citation>, b: seq<Citation>)
    ensures KeepLinked(a + b) == KeepLinked(a) + KeepLinked(b)
  {
    if a == [] {
      assert a + b == b;
    } else {
      assert (a + b)[0] == a[0];
      assert (a + b)[1..] == a[1..] + b;
      KeepLinkedAppend(a[1..], b);
    }
  }

  /** Every linked citation is kept, and every kept source comes from a linked citation. */
  lemma {:induction false} KeepLinkedMembers(cs: seq<Citation>)
    ensures forall i :: 0 <= i < |cs| && Linked(cs[i]) ==> AsSource(cs[i]) in KeepLinked(cs)
    ensures forall s :: s in KeepLinked(cs) ==> exists i :: 0 <= i < |cs| && Linked(cs[i]) && s == AsSource(cs[i])
  {
    if cs != [] {
      KeepLinkedMembers(cs[1..]);
      var head := if Linked(cs[0]) then [AsSource(cs[0])] else [];
      assert KeepLinked(cs) == head + KeepLinked(cs[1..]);
      forall i | 0 <= i < |cs| && Linked(cs[i]) ensures AsSource(cs[i]) in KeepLinked(cs) {
        if i > 0 { assert cs[i] == cs[1..][i - 1]; }
      }
      forall s | s in KeepLinked(cs) ensures exists i :: 0 <= i < |cs| && Linked(cs[i]) && s == AsSource(cs[i]) {
        if s !in head {
          var j :| 0 <= j < |cs[1..]| && Linked(cs[1..][j]) && s == AsSource(cs[1..][j]);
          assert cs[j + 1] == cs[1..][j];
        }
      }
    }
  }
}
