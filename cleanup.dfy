/**
 * The effect that releases display URLs: whenever the list of displayed
 * images is replaced, every old URL created by `URL.createObjectURL` (those
 * starting with "blob:") is handed to `URL.revokeObjectURL`, in list order.
 */
module Cleanup {

  /** `url.startsWith('blob:')`. */
  predicate IsBlobUrl(url: string) {
    "blob:" <= url
  }

  /** The URLs, in order, that one run of the cleanup revokes. */
  function BlobUrls(urls: seq<string>): seq<string> {
    if urls == [] then []
    else
      var last := urls[|urls| - 1];
      BlobUrls(urls[..|urls| - 1]) + (if IsBlobUrl(last) then [last] else [])
  }

  /** Each blob URL is revoked exactly as often as it is displayed; nothing else is revoked. */
  lemma {:induction false} BlobUrlsCount(urls: seq<string>, u: string)
    ensures multiset(BlobUrls(urls))[u] == if IsBlobUrl(u) then multiset(urls)[u] else 0
  {
    if urls != [] {
      var n := |urls| - 1;
      BlobUrlsCount(urls[..n], u);
      assert urls == urls[..n] + [urls[n]];
    }
  }

  /** A URL is revoked if and only if it was displayed and starts with "blob:". */
  lemma BlobUrlsMembership(urls: seq<string>, u: string)
    ensures u in BlobUrls(urls) <==> u in urls && IsBlobUrl(u)
  {
    BlobUrlsCount(urls, u);
    assert u in BlobUrls(urls) <==> multiset(BlobUrls(urls))[u] > 0;
    assert u in urls <==> multiset(urls)[u] > 0;
  }

  /** The `forEach` loop of the cleanup: returns the URLs it revokes, in order. */
  method RevokeBlobUrls(urls: seq<string>) returns (revoked: seq<string>)
    ensures revoked == BlobUrls(urls)
  {
    revoked := [];
    var i := 0;
    while i < |urls|
      invariant 0 <= i <= |urls|
      invariant revoked == BlobUrls(urls[..i])
    {
      if IsBlobUrl(urls[i]) {
        revoked := revoked + [urls[i]];
      }
      assert urls[..i + 1][..i] == urls[..i];
      i := i + 1;
    }
    assert urls[..|urls|] == urls;
  }
}
