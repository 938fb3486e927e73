/**
 * The scaled-down preview cache behind the `Handle<Image>` inspector widget.
 *
 * The widget draws a 100x100 preview of an image instead of the image itself.
 * `ScaledDownTextures` remembers, for every original image, the derivative
 * that was made from it, and which images are themselves derivatives, so that
 * each original is resized at most once and no derivative is resized again.
 */
module ImageCache {
  import opened Wrappers
  import opened Engine

  /** `RESCALE_TO_FIT`: the box every preview is resized to fit. */
  const RescaleToFit: (nat, nat) := (100, 100)

  /** An `image::DynamicImage`, the decoded form the resize works on. */
  datatype DynamicImage = DynamicImage(width: nat, height: nat, pixels: seq<bv8>)

  /**
   * The pixel pipeline, which the cache does not look into:
   * `try_into_dynamic` decodes an image and reports whether it was sRGB (or
   * fails on a format it cannot convert), `resize` is the image crate's
   * resize to fit a box, and `from_dynamic` encodes back into an `Image`.
   */
  datatype Conversion = Conversion(
    tryIntoDynamic: Image -> Option<(DynamicImage, bool)>,
    resize: (DynamicImage, nat, nat) -> DynamicImage,
    fromDynamic: (DynamicImage, bool) -> Image)

  /** The preview made from `original`: decode, resize to `RescaleToFit`,
      encode with the sRGB flag the decoding reported. */
  function Derive(conv: Conversion, original: Image): (r: Option<Image>)
    ensures r.Some? <==> conv.tryIntoDynamic(original).Some?
  {
    match conv.tryIntoDynamic(original)
    case None => None
    case Some((image, isSrgb)) =>
      Some(conv.fromDynamic(conv.resize(image, RescaleToFit.0, RescaleToFit.1), isSrgb))
  }

  /** The conversions report the sRGB flag of the image they decode, and encode
      with the flag they are given. */
  ghost predicate KeepsEncoding(conv: Conversion) {
    && (forall img :: conv.tryIntoDynamic(img).Some? ==> conv.tryIntoDynamic(img).value.1 == img.srgb)
    && (forall d, b :: conv.fromDynamic(d, b).srgb == b)
  }

  /** The resize scales to the largest size that fits the box it is given:
      it fits, and it touches the box on at least one side. Encoding keeps
      the size. */
  ghost predicate ResizesToFit(conv: Conversion) {
    && (forall d, w, h :: conv.resize(d, w, h).width <= w && conv.resize(d, w, h).height <= h)
    && (forall d, w, h :: conv.resize(d, w, h).width == w || conv.resize(d, w, h).height == h)
    && (forall d, b :: conv.fromDynamic(d, b).width == d.width && conv.fromDynamic(d, b).height == d.height)
  }

  lemma DeriveKeepsEncoding(conv: Conversion, original: Image)
    requires KeepsEncoding(conv)
    ensures Derive(conv, original).Some? ==> Derive(conv, original).value.srgb == original.srgb
  {
  }

  lemma DeriveFitsBox(conv: Conversion, original: Image)
    requires ResizesToFit(conv)
    ensures Derive(conv, original).Some? ==>
              && Derive(conv, original).value.width <= RescaleToFit.0
              && Derive(conv, original).value.height <= RescaleToFit.1
              && (Derive(conv, original).value.width == RescaleToFit.0
                  || Derive(conv, original).value.height == RescaleToFit.1)
  {
  }

  /** The abstract value of `ScaledDownTextures`: original -> derivative, and
      the set of images known to be derivatives. */
  datatype CacheState = CacheState(textures: map<AssetId, AssetId>, rescaled: set<AssetId>)

  /**
   * What the cache and the store keep true together: every derivative the map
   * holds is known as one, no known derivative is a key, and every id the
   * cache mentions names an image in the store.
   */
  predicate Coherent(c: CacheState, s: StoreState) {
    && c.textures.Values <= c.rescaled
    && c.textures.Keys !! c.rescaled
    && c.textures.Keys + c.rescaled <= s.images.Keys
  }

  /** The states after a `rescaled_image` call, and its return value: the
      derivative's handle and its egui texture id. */
  datatype Step = Step(cache: CacheState, store: StoreState, result: Option<(AssetId, TextureId)>)

  /**
   * `rescaled_image` on values. `addImage` is `EguiUserTextures::add_image`,
   * which `rescaled_image` calls on the derivative on both the hit and the miss path.
   */
  function Rescaled(c: CacheState, s: StoreState, handle: AssetId, conv: Conversion,
                    addImage: AssetId -> TextureId): (r: Step)
    requires s.Valid()
    ensures r.store.Valid()
    // Every outcome without a preview leaves the cache and the store as they were.
    ensures r.result.None? ==> r.cache == c && r.store == s
    // Hit: the stored derivative, nothing changes.
    ensures handle in c.textures ==>
              r == Step(c, s, Some((c.textures[handle], addImage(c.textures[handle]))))
    // A known derivative is never resized.
    ensures handle !in c.textures && handle in c.rescaled ==> r.result.None?
    // Otherwise a preview exists exactly when the original exists and converts.
    ensures handle !in c.textures && handle !in c.rescaled ==>
              (r.result.Some? <==> handle in s.images && Derive(conv, s.images[handle]).Some?)
    // Successful miss: one new asset, one new map entry, one new known derivative.
    ensures handle !in c.textures && r.result.Some? ==>
              var d := r.result.value.0;
              && handle in s.images
              && Derive(conv, s.images[handle]).Some?
              && d !in s.images
              && r.store.images == s.images[d := Derive(conv, s.images[handle]).value]
              && r.cache == CacheState(c.textures[handle := d], c.rescaled + {d})
              && r.result.value.1 == addImage(d)
    // After any preview the handle is a key mapping to the returned derivative.
    ensures r.result.Some? ==>
              handle in r.cache.textures && r.cache.textures[handle] == r.result.value.0
    ensures Coherent(c, s) ==> Coherent(r.cache, r.store)
  {
    if handle in c.textures then
      var d := c.textures[handle];
      Step(c, s, Some((d, addImage(d))))
    else if handle in c.rescaled then
      Step(c, s, None)
    else if handle !in s.images then
      Step(c, s, None)
    else
      match Derive(conv, s.images[handle])
      case None => Step(c, s, None)
      case Some(resized) =>
        var (s', d) := s.Add(resized);
        Step(CacheState(c.textures[handle := d], c.rescaled + {d}), s', Some((d, addImage(d))))
  }

  /** A second call on the same handle, after a first that made or found a
      preview, is a hit: the same derivative, no new asset, nothing changed. */
  lemma RepeatIsHit(c: CacheState, s: StoreState, handle: AssetId, conv: Conversion,
                    addImage: AssetId -> TextureId)
    requires s.Valid()
    ensures var first := Rescaled(c, s, handle, conv, addImage);
            first.result.Some? ==> Rescaled(first.cache, first.store, handle, conv, addImage) == first
  {
  }

  /** A derivative, asked for a preview of its own, yields none and changes nothing. */
  lemma DerivativeIsNeverRescaled(c: CacheState, s: StoreState, d: AssetId, conv: Conversion,
                                  addImage: AssetId -> TextureId)
    requires s.Valid() && Coherent(c, s)
    requires d in c.rescaled
    ensures Rescaled(c, s, d, conv, addImage) == Step(c, s, None)
  {
  }

  /** The cache and the store after one `rescaled_image` call per handle in
      `handles`, in order, as the widget makes once per frame. */
  function RescaleAll(c: CacheState, s: StoreState, handles: seq<AssetId>, conv: Conversion,
                      addImage: AssetId -> TextureId): (CacheState, StoreState)
    requires s.Valid()
    decreases |handles|
  {
    if handles == [] then (c, s)
    else
      var step := Rescaled(c, s, handles[0], conv, addImage);
      RescaleAll(step.cache, step.store, handles[1..], conv, addImage)
  }

  /**
   * Over any run of calls: the invariant holds throughout, an original once
   * mapped keeps its derivative, and the store grows by exactly one image per
   * original that gained a derivative, so each original is resized at most once.
   */
  lemma {:induction false} RescaleAllResizesOncePerOriginal(c: CacheState, s: StoreState, handles: seq<AssetId>,
                                                            conv: Conversion, addImage: AssetId -> TextureId)
    requires s.Valid() && Coherent(c, s)
    ensures var (c', s') := RescaleAll(c, s, handles, conv, addImage);
            && s'.Valid()
            && Coherent(c', s')
            && (forall k | k in c.textures :: k in c'.textures && c'.textures[k] == c.textures[k])
            && c.rescaled <= c'.rescaled
            && s.images.Keys <= s'.images.Keys
            && |s'.images| - |s.images| == |c'.textures| - |c.textures|
    decreases |handles|
  {
    if handles != [] {
      var step := Rescaled(c, s, handles[0], conv, addImage);
      if step.result.Some? && handles[0] !in c.textures {
        var d := step.result.value.0;
        assert |step.store.images| == |s.images| + 1;
        assert |step.cache.textures| == |c.textures| + 1;
      }
      RescaleAllResizesOncePerOriginal(step.cache, step.store, handles[1..], conv, addImage);
    }
  }

  /** `ScaledDownTextures`, the process-wide cache, updated in place. */
  class ScaledDownTextures {
    var textures: map<AssetId, AssetId>
    var rescaledTextures: set<AssetId>

    /** `#[derive(Default)]`: both collections empty. */
    constructor ()
      ensures State() == CacheState(map[], {})
    {
      textures := map[];
      rescaledTextures := {};
    }

    function State(): CacheState
      reads this
    {
      CacheState(textures, rescaledTextures)
    }
  }

  /**
   * `rescaled_image`: look `handle` up in the cache; on a miss, resize the
   * original, add the result to the store, and record it in the cache.
   */
  method RescaledImage(handle: AssetId, cache: ScaledDownTextures, images: ImageAssets,
                       conv: Conversion, addImage: AssetId -> TextureId)
    returns (r: Option<(AssetId, TextureId)>)
    requires images.Valid()
    modifies cache, images
    ensures images.Valid()
    ensures Step(cache.State(), images.State(), r)
            == Rescaled(old(cache.State()), old(images.State()), handle, conv, addImage)
  {
    if handle in cache.textures {
      var stored := cache.textures[handle];
      return Some((stored, addImage(stored)));
    }
    if handle in cache.rescaledTextures {
      return None;
    }
    var original :- images.Get(handle);
    var decoded :- conv.tryIntoDynamic(original);
    var (image, isSrgb) := decoded;
    var resized := conv.resize(image, RescaleToFit.0, RescaleToFit.1);
    var encoded := conv.fromDynamic(resized, isSrgb);
    var resizedHandle := images.Add(encoded);
    var textureId := addImage(resizedHandle);
    cache.textures := cache.textures[handle := resizedHandle];
    cache.rescaledTextures := cache.rescaledTextures + {resizedHandle};
    r := Some((resizedHandle, textureId));
  }

  /** What `update_and_show_image` draws. */
  datatype Shown =
    | Errors(reports: seq<ErrorReport>)
    | Placeholder(text: string)
    | Preview(derivative: AssetId, texture: TextureId, image: Image)

  /**
   * `update_and_show_image`: borrow `EguiUserTextures` and `Assets<Image>`
   * (the results of `get_two_resources_mut`); if either is missing, draw one
   * error per missing resource and stop; otherwise fetch the preview and draw
   * it, or the `<texture>` label when there is none.
   */
  method UpdateAndShowImage(image: AssetId, cache: ScaledDownTextures,
                            userTextures: Result<AssetId -> TextureId, LookupError>,
                            images: Result<ImageAssets, LookupError>, conv: Conversion)
    returns (shown: Shown)
    requires images.Success? ==> images.value.Valid() && Coherent(cache.State(), images.value.State())
    modifies cache, if images.Success? then {images.value} else {}
    ensures images.Success? ==> images.value.Valid() && Coherent(cache.State(), images.value.State())
    ensures userTextures.Failure? || images.Failure? ==>
              && shown == Errors(LookupReports(userTextures, "EguiContext", images, "Assets<Image>"))
              && unchanged(cache)
              && (images.Success? ==> unchanged(images.value))
    ensures userTextures.Success? && images.Success? ==>
              var step := Rescaled(old(cache.State()), old(images.value.State()), image, conv, userTextures.value);
              && cache.State() == step.cache
              && images.value.State() == step.store
              && shown == match step.result
                          case None => Placeholder("<texture>")
                          case Some((d, texture)) => Preview(d, texture, step.store.images[d])
  {
    if userTextures.Failure? || images.Failure? {
      shown := Errors(LookupReports(userTextures, "EguiContext", images, "Assets<Image>"));
      return;
    }
    var assets := images.value;
    var rescaled := RescaledImage(image, cache, assets, conv, userTextures.value);
    match rescaled {
      case None =>
        shown := Placeholder("<texture>");
      case Some((d, texture)) =>
        // `images.get(&rescaled_handle).unwrap()`: the derivative is in the store.
        shown := Preview(d, texture, assets.images[d]);
    }
  }
}
