/** The image component that offers AVIF and WebP sources beside the
    original file: the derivation of the variant paths and the attributes
    and loading flag that depend on the priority flag. */
module OptimizedImage {
  import opened Wrappers
  import opened Text

  /** Everything before the last '.', or the whole path when it has none. */
  function BaseName(path: string): (b: string)
    ensures '.' !in path ==> b == path
    ensures '.' in path ==> |b| < |path| && path[..|b|] == b && path[|b|] == '.' && '.' !in path[|b| + 1..]
  {
    match LastIndexOfChar(path, '.')
    case Some(k) => path[..k]
    case None => path
  }

  datatype Variants = Variants(avif: string, webp: string, fallback: string)

  /** getImageVariants. */
  function ImageVariants(path: string): (v: Variants)
    ensures v.fallback == path
    ensures v.avif == BaseName(path) + ".avif" && v.webp == BaseName(path) + ".webp"
    ensures '.' !in path ==> v.avif == path + ".avif" && v.webp == path + ".webp"
  {
    var base := BaseName(path);
    Variants(base + ".avif", base + ".webp", path)
  }

  /** A file name with an extension gets its extension swapped for each
      variant and keeps everything before it, dots included. */
  lemma VariantsSwapExtension(base: string, ext: string)
    requires '.' !in ext
    ensures ImageVariants(base + "." + ext) == Variants(base + ".avif", base + ".webp", base + "." + ext)
  {
    var path := base + "." + ext;
    assert path[|base|] == '.';
    assert path[|base| + 1..] == ext;
    assert path[..|base|] == base;
  }

  /** The attributes of the <img> element. */
  datatype ImgAttributes = ImgAttributes(loading: string, fetchPriority: string)

  function Attributes(priority: bool): (a: ImgAttributes)
    ensures a.loading == "eager" <==> priority
    ensures a.fetchPriority == "high" <==> priority
    ensures a.loading in {"eager", "lazy"} && a.fetchPriority in {"high", "low"}
  {
    if priority then ImgAttributes("eager", "high") else ImgAttributes("lazy", "low")
  }

  /** The wrapper's state class, from the loading flag. */
  function WrapperState(isLoading: bool): (s: string)
    ensures s == "loading" <==> isLoading
    ensures s == "loaded" <==> !isLoading
  {
    if isLoading then "loading" else "loaded"
  }

  /** The displayed source and the loading flag. */
  class ImageState {
    const variants: Variants
    var imageSrc: string
    var isLoading: bool

    /** The placeholder is shown first; only a low-priority image starts
        out marked as loading. */
    constructor (src: string, priority: bool, placeholder: string)
      ensures variants == ImageVariants(src)
      ensures imageSrc == placeholder && isLoading == !priority
    {
      variants := ImageVariants(src);
      imageSrc := placeholder;
      isLoading := !priority;
    }

    /** The preloaded image finished, by load or by error: in both cases the
        original file is shown and loading ends. */
    method Settle()
      modifies this
      ensures imageSrc == variants.fallback && !isLoading
    {
      imageSrc := variants.fallback;
      isLoading := false;
    }
  }
}
