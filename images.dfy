/**
 * Image URL construction (config/images.ts). The CDN base URL comes from
 * the build environment; it is a parameter here.
 */
module Images {
  import opened Types

  const LocalPrefix := "/attachments/"

  /** `import.meta.env.VITE_IMAGE_CDN_URL || ''`: an unset or empty
      variable leaves the base empty. */
  function CdnBase(env: Option<string>): (base: string)
    ensures base == "" <==> env.None? || env.value == ""
    ensures base != "" ==> env == Some(base)
  {
    if env.Some? then env.value else ""
  }

  predicate StartsWithSlash(p: string) {
    |p| > 0 && p[0] == '/'
  }

  /** The text put in front of the cleaned path. */
  function UrlPrefix(base: string): (prefix: string)
    ensures |prefix| > 0 && prefix[|prefix| - 1] == '/'
  {
    if base != "" then base + "/" else LocalPrefix
  }

  /** `getImageUrl(imagePath)`: total, for every base and path. */
  function GetImageUrl(base: string, imagePath: string): (url: string)
    ensures UrlPrefix(base) <= url
  {
    if base != "" then
      var cleanPath := if StartsWithSlash(imagePath) then imagePath[1..] else imagePath;
      base + "/" + cleanPath
    else
      LocalPrefix + imagePath
  }

  /** Every URL is the prefix for its base followed by the path, from which
      one leading slash is removed exactly when a CDN base is set. */
  lemma UrlShape(base: string, imagePath: string)
    ensures var url := GetImageUrl(base, imagePath);
      && UrlPrefix(base) <= url
      && url[|UrlPrefix(base)|..]
         == if base != "" && StartsWithSlash(imagePath) then imagePath[1..] else imagePath
  {
  }

  /** Inverse of GetImageUrl for a known base: strip the prefix. */
  function ImagePathOf(base: string, url: string): (path: Option<string>)
    ensures path.Some? ==> UrlPrefix(base) + path.value == url
    ensures path.None? ==> !(UrlPrefix(base) <= url)
  {
    var prefix := UrlPrefix(base);
    if prefix <= url then Some(url[|prefix|..]) else None
  }

  /** A path is recovered from its URL unless a CDN base strips its
      leading slash. */
  lemma ImagePathRoundTrip(base: string, imagePath: string)
    requires base == "" || !StartsWithSlash(imagePath)
    ensures ImagePathOf(base, GetImageUrl(base, imagePath)) == Some(imagePath)
  {
  }

  /** Hence distinct paths give distinct URLs, for every path when no CDN
      base is set and for paths without a leading slash otherwise. */
  lemma GetImageUrlInjective(base: string, p: string, q: string)
    requires base == "" || (!StartsWithSlash(p) && !StartsWithSlash(q))
    requires GetImageUrl(base, p) == GetImageUrl(base, q)
    ensures p == q
  {
    ImagePathRoundTrip(base, p);
    ImagePathRoundTrip(base, q);
  }

  /** With a CDN base, "/x" and "x" name the same image; the local
      fallback keeps the slash, giving "/attachments//x". */
  lemma LeadingSlashCollapses(base: string, x: string)
    ensures base != "" && !StartsWithSlash(x) ==> GetImageUrl(base, "/" + x) == GetImageUrl(base, x)
    ensures base == "" ==> GetImageUrl(base, "/" + x) == "/attachments//" + x
  {
  }

  /** Only one slash is removed: "//x" keeps its second slash. */
  lemma OnlyOneSlashStripped(base: string, x: string)
    requires base != ""
    ensures GetImageUrl(base, "//" + x) == base + "//" + x
  {
  }

  /** `IMAGE_FILES`: the file name of every photograph. */
  const ImageFiles: map<string, string> := map[
    "DSC00670" := "DSC00670.JPG",
    "DSC01709" := "DSC01709.JPEG",
    "DSC09894" := "DSC09894 2.jpeg",
    "DSC0E5024" := "DSC0E5024.JPG",
    "IMG_1823" := "IMG_1823 2.JPG",
    "SAASILMONICA3" := "saasilmonica3.JPG"
  ]

  /** No file name starts with '/', so both branches append it verbatim. */
  lemma ImageFilesVerbatim(base: string, key: string)
    requires key in ImageFiles
    ensures !StartsWithSlash(ImageFiles[key])
    ensures GetImageUrl(base, ImageFiles[key]) == UrlPrefix(base) + ImageFiles[key]
  {
  }
}
