/** The video id the YouTube player embeds, taken from the listing's video URL. */
module YoutubePlayer {
  import opened Text

  /** `videoUrl.includes('shorts')`. */
  predicate IsShort(url: string) {
    Contains(url, "shorts")
  }

  /** The id, or what the expression gives instead. */
  datatype VideoId =
    | Id(id: string)
    | Undefined    // a shorts URL with fewer than five '/'-separated pieces
    | TypeError    // a non-shorts URL without '=': `split('=')[1]` is undefined

  /**
   * Shorts URLs: the fifth '/'-separated piece. Other URLs: the text after
   * the first '=' up to the next '&' (or the end).
   */
  function ExtractVideoId(url: string): (r: VideoId)
    ensures IsShort(url) ==> (r.Id? <==> Count(url, '/') >= 4)
    ensures IsShort(url) && r.Id? ==> r.id == Split(url, '/')[4] && '/' !in r.id
    ensures IsShort(url) && !r.Id? ==> r == Undefined
    ensures !IsShort(url) ==> (r == TypeError <==> '=' !in url)
    ensures !IsShort(url) && r.Id? ==> '&' !in r.id && '=' !in r.id
  {
    if IsShort(url) then
      var pieces := Split(url, '/');
      if |pieces| > 4 then Id(pieces[4]) else Undefined
    else
      var parts := Split(url, '=');
      if |parts| < 2 then TypeError
      else
        var id := Split(parts[1], '&')[0];
        SplitHead(parts[1], '&');
        assert '=' !in id by {
          assert forall k :: 0 <= k < |id| ==> id[k] == parts[1][k];
        }
        Id(id)
  }

  /** The second '='-piece starts right after the first '=' and runs to the next '=' or the end. */
  lemma SecondPiece(url: string)
    requires '=' in url
    ensures |Split(url, '=')| > 1
    ensures var i := |Split(url, '=')[0]|; var p := Split(url, '=')[1];
      i < |url| && url[i] == '=' && '=' !in url[..i] && p <= url[i + 1..]
      && (|p| == |url| - i - 1 || url[i + 1 + |p|] == '=')
  {
    var parts := Split(url, '=');
    var i := |parts[0]|;
    SplitHead(url, '=');
    SplitTail(url, '=');
    var after := url[i + 1..];
    assert parts[1] == Split(after, '=')[0];
    SplitHeadEnds(after, '=');
    assert url[..i] == parts[0];
  }

  /**
   * For a non-shorts URL with an '=', the id is what follows the first '='
   * up to the next '&' or '=', or to the end.
   */
  lemma IdFollowsFirstEquals(url: string)
    requires !IsShort(url) && '=' in url
    ensures ExtractVideoId(url).Id?
    ensures var id := ExtractVideoId(url).id;
      exists i :: 0 <= i < |url| && url[i] == '=' && '=' !in url[..i]
        && id <= url[i + 1..]
        && (|id| == |url| - i - 1 || url[i + 1 + |id|] == '&' || url[i + 1 + |id|] == '=')
  {
    SecondPiece(url);
    var i := |Split(url, '=')[0]|;
    var rest := Split(url, '=')[1];
    var id := Split(rest, '&')[0];
    SplitHeadEnds(rest, '&');
    SplitHead(rest, '&');
    assert ExtractVideoId(url).id == id;
    assert id <= url[i + 1..];
    assert |id| == |url| - i - 1 || url[i + 1 + |id|] == '&' || url[i + 1 + |id|] == '=';
  }
}
