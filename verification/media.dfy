/** Image keys stored with a record become public URLs at response time.
    The URL helper itself is not part of this model: it is the parameter `mediaUrl`. */
module Media {
  import opened Js
  import opened Seqs

  /** `(record.images || []).map(getPublicMediaUrl)` */
  function ImageUrls(keys: Nullable<seq<string>>, mediaUrl: string -> string): (r: seq<string>)
    ensures |r| == |ArrayOrEmpty(keys)|
    ensures forall i :: 0 <= i < |r| ==> r[i] == mediaUrl(ArrayOrEmpty(keys)[i])
    ensures !keys.Defined? ==> r == []
  {
    Map(ArrayOrEmpty(keys), mediaUrl)
  }

  /** `key ? getPublicMediaUrl(key) : images[0] || null`: the stored featured image,
      else the first image URL when there is one and it is non-empty, else null. */
  function FeaturedImageUrl(key: Nullable<string>, images: seq<string>, mediaUrl: string -> string): (r: Option<string>)
    ensures TruthyString(key) ==> r == Some(mediaUrl(key.value))
    ensures !TruthyString(key) && |images| > 0 && images[0] != "" ==> r == Some(images[0])
    ensures !TruthyString(key) && (|images| == 0 || images[0] == "") ==> r == None
  {
    if TruthyString(key) then Some(mediaUrl(key.value))
    else if |images| > 0 && images[0] != "" then Some(images[0])
    else None
  }

  /** A record with no stored featured image and no image keys reports `featured_image: null`
      and `images: []`, never an undefined value. */
  lemma NoImagesGiveNull(key: Nullable<string>, keys: Nullable<seq<string>>, mediaUrl: string -> string)
    requires !TruthyString(key)
    requires !keys.Defined? || keys.value == []
    ensures ImageUrls(keys, mediaUrl) == []
    ensures FeaturedImageUrl(key, ImageUrls(keys, mediaUrl), mediaUrl) == None
  {
  }

  /** Whatever the featured image is, it is a URL the helper produced: from the featured key
      or from the first image key. */
  lemma FeaturedImageIsMediaUrl(key: Nullable<string>, keys: Nullable<seq<string>>, mediaUrl: string -> string)
    ensures var r := FeaturedImageUrl(key, ImageUrls(keys, mediaUrl), mediaUrl);
            r.Some? ==>
              (TruthyString(key) && r.value == mediaUrl(key.value)) ||
              (!TruthyString(key) && |ArrayOrEmpty(keys)| > 0 && r.value == mediaUrl(ArrayOrEmpty(keys)[0]))
  {
  }
}
