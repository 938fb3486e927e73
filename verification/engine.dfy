/**
 * The parts of the Bevy engine that the inspector widgets talk to: asset
 * handles, the `Assets<Image>` store, and the errors a resource lookup in the
 * inspected world can produce.
 */
module Engine {
  import opened Wrappers

  /** The identity of an asset. A `Handle<T>` compares and hashes by this id
      alone, so its strong and weak forms are the same value here. */
  type AssetId = nat

  /** The id egui draws a registered user texture by. */
  type TextureId = nat

  /** A `TypeId`: which Rust type an asset loader produces. */
  type TypeTag = nat

  /** An asset path, relative to the root of an asset source. */
  type Path = string

  /** A GPU image asset: its size, whether its texture format is sRGB-encoded,
      and its pixel bytes (the layout of the bytes is not modelled). */
  datatype Image = Image(width: nat, height: nat, srgb: bool, data: seq<bv8>)

  /** The abstract value of an `Assets<Image>` store: the stored images by id,
      and the next id its allocator hands out. */
  datatype StoreState = StoreState(images: map<AssetId, Image>, nextId: nat) {

    /** The allocator has never handed out `nextId` or anything above it. */
    predicate Valid() {
      forall id | id in images :: id < nextId
    }

    /** `Assets::add`: store `image` under a fresh id and return that id. */
    function Add(image: Image): (r: (StoreState, AssetId))
      requires Valid()
      ensures r.0.Valid()
      ensures r.1 !in images
      ensures r.0.images == images[r.1 := image]
    {
      (StoreState(images[nextId := image], nextId + 1), nextId)
    }
  }

  /** `Assets<Image>`, the store that owns every image asset, updated in place. */
  class ImageAssets {
    var images: map<AssetId, Image>
    var nextId: nat

    ghost predicate Valid()
      reads this
    {
      State().Valid()
    }

    function State(): StoreState
      reads this
    {
      StoreState(images, nextId)
    }

    /** `Assets::get`: the image stored under `id`, if any. A collaborator
        stub: the engine's lookup, taken to be a lookup in the store's map. */
    function Get(id: AssetId): (r: Option<Image>)
      reads this
      ensures r.Some? <==> id in images
      ensures r.Some? ==> r.value == images[id]
    {
      if id in images then Some(images[id]) else None
    }

    /** `Assets::add`: store `image` and return the handle of the new asset. */
    method Add(image: Image) returns (id: AssetId)
      requires Valid()
      modifies this
      ensures Valid()
      ensures (State(), id) == old(State()).Add(image)
    {
      id := nextId;
      images := images[id := image];
      nextId := nextId + 1;
    }
  }

  /** Why the inspected world could not lend out a resource. */
  datatype LookupError = LookupError(message: string)

  /** An error the inspector draws in place of a widget: a failed resource
      lookup labelled with a type name, or the absence of a world to look in. */
  datatype ErrorReport =
    | ResourceError(error: LookupError, typeName: string)
    | NoWorldInContext(typeName: string)

  /**
   * The errors drawn after `get_two_resources_mut` when at least one of the
   * two lookups failed: one per failed lookup, the first resource's first.
   */
  function LookupReports<A, B>(first: Result<A, LookupError>, firstName: string,
                               second: Result<B, LookupError>, secondName: string): (reports: seq<ErrorReport>)
    ensures |reports| == (if first.Failure? then 1 else 0) + (if second.Failure? then 1 else 0)
    ensures first.Failure? ==> reports[0] == ResourceError(first.error, firstName)
    ensures second.Failure? ==> reports[|reports| - 1] == ResourceError(second.error, secondName)
  {
    (if first.Failure? then [ResourceError(first.error, firstName)] else [])
    + (if second.Failure? then [ResourceError(second.error, secondName)] else [])
  }
}
