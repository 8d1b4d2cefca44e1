/** The text-length cap shared by every handler of the bridge. */
module Text {

  /** Default cap on page text returned by the get_content action. */
  const MaxTextLength: nat := 15000

  /** Cap used by the click and evaluate actions. */
  const InteractionTextLength: nat := 10000

  /** Appended to a text that was cut. */
  const TruncationMarker: string := "\n...(truncated)"

  /** Keeps `text` when it fits in `limit` characters, otherwise keeps its
      first `limit` characters followed by the truncation marker. */
  function Truncate(text: string, limit: nat): (r: string)
    ensures |text| <= limit ==> r == text
    ensures |text| > limit ==> |r| == limit + 15
    ensures |text| > limit ==> r[..limit] == text[..limit] && r[limit..] == TruncationMarker
    ensures |r| <= limit + |TruncationMarker|
  {
    if |text| > limit then text[..limit] + TruncationMarker else text
  }

  /** The length of a result tells whether the input was cut. */
  lemma TruncatedIffLonger(text: string, limit: nat)
    ensures |Truncate(text, limit)| > limit <==> |text| > limit
  {
  }

  /** A text comes back unchanged exactly when it fits, or when it is itself
      `limit` characters followed by the marker (cutting it rebuilds it). */
  lemma TruncateFixpoint(text: string, limit: nat)
    ensures Truncate(text, limit) == text <==>
            |text| <= limit || (|text| == limit + |TruncationMarker| && text[limit..] == TruncationMarker)
  {
  }
}
