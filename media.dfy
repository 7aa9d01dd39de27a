/** Media-type normalisation shared by the tagged-media poller and both
    webhook controllers (the three copies in the source are identical). */
module MediaTypes {
  import opened Common

  /** Graph-API media types fold onto the stored categories: `image` and
      `carousel` are posts, `video` is a reel; anything else is kept,
      lower-cased. */
  function NormalizeMediaType(mediaType: string): (r: string)
    ensures Lower(mediaType) == "image" ==> r == "post"
    ensures Lower(mediaType) == "video" ==> r == "reel"
    ensures Lower(mediaType) == "carousel" ==> r == "post"
    ensures Lower(mediaType) !in {"image", "video", "carousel"} ==> r == Lower(mediaType)
    ensures Lower(r) == r
  {
    match Lower(mediaType)
    case "image" => "post"
    case "video" => "reel"
    case "carousel" => "post"
    case other => other
  }

  /** Normalising twice is normalising once. */
  lemma NormalizeIdempotent(mediaType: string)
    ensures NormalizeMediaType(NormalizeMediaType(mediaType)) == NormalizeMediaType(mediaType)
  {
    var r := NormalizeMediaType(mediaType);
    if Lower(mediaType) in {"image", "video", "carousel"} {
      assert r in {"post", "reel"};
    } else {
      assert r == Lower(mediaType);
    }
  }

  /** The matching ignores case: any spelling of `VIDEO` becomes `reel`. */
  lemma NormalizeIgnoresCase(a: string, b: string)
    requires Lower(a) == Lower(b)
    ensures NormalizeMediaType(a) == NormalizeMediaType(b)
  {
  }

  /** A normalised type is never upper-case, so it never equals the
      upper-case `STORY`/`IMAGE`/`VIDEO` keys the analytics fold reads. */
  lemma NormalizedNeverUpperKey(mediaType: string)
    ensures NormalizeMediaType(mediaType) !in {"STORY", "IMAGE", "VIDEO"}
  {
    var r := NormalizeMediaType(mediaType);
    if |r| > 0 {
      assert Lower(r)[0] == LowerChar(r[0]);
      assert !IsUpperAscii(r[0]);
    }
  }
}
