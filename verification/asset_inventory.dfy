/**
 * The asset inventory and the handle picker of the inspector.
 *
 * `update_assets` lists the root of the default asset source once, keeps each
 * listed path that some asset loader accepts, tagged with the type that loader
 * produces, and publishes the list as the `AssetData` resource. `handle_ui`
 * offers the paths of that inventory whose type is the handle's asset type in
 * a drop-down, and points the handle at the path the user picks.
 */
module AssetInventory {
  import opened Wrappers
  import opened Engine

  /** `AssetEntry`: a path and the type its loader produces. */
  datatype AssetEntry = AssetEntry(path: Path, assetType: TypeTag)

  /** `AssetData`, the published inventory. */
  datatype AssetData = AssetData(assets: seq<AssetEntry>)

  /** An asset source, through what one scan of it reads: the listing of its
      root directory, or the I/O error that prevented it. */
  datatype AssetSource = AssetSource(rootListing: Result<seq<Path>, string>)

  /**
   * `AssetServer`, through the three things asked of it: its default source,
   * the loader lookup by path (reduced to the type the loader produces), and
   * `load`, which starts loading a path and hands back its handle.
   */
  datatype AssetServer = AssetServer(
    defaultSource: Option<AssetSource>,
    loaderFor: Path -> Option<TypeTag>,
    load: Path -> AssetId)

  /** The entry a listed path contributes: one when a loader accepts it. */
  function Classify(path: Path, loaderFor: Path -> Option<TypeTag>): seq<AssetEntry> {
    match loaderFor(path)
    case Some(t) => [AssetEntry(path, t)]
    case None => []
  }

  /** The inventory assembled from a directory listing. */
  function Inventory(paths: seq<Path>, loaderFor: Path -> Option<TypeTag>): seq<AssetEntry> {
    if paths == [] then []
    else Classify(paths[0], loaderFor) + Inventory(paths[1..], loaderFor)
  }

  /** Assembly keeps listing order: the inventory of two listings one after the
      other is the one inventory followed by the other. */
  lemma {:induction false} InventoryConcat(a: seq<Path>, b: seq<Path>, loaderFor: Path -> Option<TypeTag>)
    ensures Inventory(a + b, loaderFor) == Inventory(a, loaderFor) + Inventory(b, loaderFor)
  {
    if a != [] {
      assert (a + b)[0] == a[0] && (a + b)[1..] == a[1..] + b;
      InventoryConcat(a[1..], b, loaderFor);
    } else {
      assert a + b == b;
    }
  }

  /** An entry is in the inventory exactly when its path was listed and a
      loader of its type accepts that path. */
  lemma {:induction false} InventoryMember(paths: seq<Path>, loaderFor: Path -> Option<TypeTag>, p: Path, t: TypeTag)
    ensures AssetEntry(p, t) in Inventory(paths, loaderFor) <==> p in paths && loaderFor(p) == Some(t)
  {
    if paths != [] {
      InventoryMember(paths[1..], loaderFor, p, t);
      assert p in paths <==> p == paths[0] || p in paths[1..];
    }
  }

  /** The inventory is never longer than the listing, and as long exactly when
      every listed path has a loader. */
  lemma {:induction false} InventoryLength(paths: seq<Path>, loaderFor: Path -> Option<TypeTag>)
    ensures |Inventory(paths, loaderFor)| <= |paths|
    ensures |Inventory(paths, loaderFor)| == |paths| <==> forall i | 0 <= i < |paths| :: loaderFor(paths[i]).Some?
  {
    if paths != [] {
      InventoryLength(paths[1..], loaderFor);
      assert forall i | 1 <= i < |paths| :: paths[i] == paths[1..][i - 1];
    }
  }

  /** The inventory one scan publishes: empty when the root cannot be listed. */
  function Scan(listing: Result<seq<Path>, string>, loaderFor: Path -> Option<TypeTag>): (inventory: seq<AssetEntry>)
    ensures listing.Failure? ==> inventory == []
    ensures listing.Success? ==> inventory == Inventory(listing.value, loaderFor)
    ensures listing.Success? ==> |inventory| <= |listing.value|
  {
    match listing
    case Failure(_) => []
    case Success(paths) =>
      InventoryLength(paths, loaderFor);
      Inventory(paths, loaderFor)
  }

  /** The world `update_assets` runs against: the two resources it touches. */
  class World {
    var assetServer: Option<AssetServer>
    var assetData: Option<AssetData>
  }

  /**
   * `update_assets`: list the root of the default source, keep each path some
   * loader accepts, and insert the result as `AssetData`, replacing whatever
   * was there. The server and its default source must exist (`update_assets`
   * unwraps both).
   */
  method UpdateAssets(world: World)
    requires world.assetServer.Some? && world.assetServer.value.defaultSource.Some?
    modifies world`assetData
    ensures world.assetData
            == Some(AssetData(Scan(world.assetServer.value.defaultSource.value.rootListing,
                                   world.assetServer.value.loaderFor)))
  {
    var server := world.assetServer.value;
    var source := server.defaultSource.value;
    var assets: seq<AssetEntry> := [];
    match source.rootListing {
      case Success(paths) =>
        var i := 0;
        while i < |paths|
          invariant 0 <= i <= |paths|
          invariant assets == Inventory(paths[..i], server.loaderFor)
        {
          var path := paths[i];
          match server.loaderFor(path) {
            case Some(t) => assets := assets + [AssetEntry(path, t)];
            case None =>
          }
          assert paths[..i + 1] == paths[..i] + [path];
          InventoryConcat(paths[..i], [path], server.loaderFor);
          i := i + 1;
        }
        assert paths[..i] == paths;
      case Failure(_) =>
    }
    world.assetData := Some(AssetData(assets));
  }

  /** The paths the picker offers for asset type `t`. */
  function PathsOfType(assets: seq<AssetEntry>, t: TypeTag): seq<Path> {
    if assets == [] then []
    else (if assets[0].assetType == t then [assets[0].path] else []) + PathsOfType(assets[1..], t)
  }

  /** The type filter keeps inventory order. */
  lemma {:induction false} PathsOfTypeConcat(a: seq<AssetEntry>, b: seq<AssetEntry>, t: TypeTag)
    ensures PathsOfType(a + b, t) == PathsOfType(a, t) + PathsOfType(b, t)
  {
    if a != [] {
      assert (a + b)[0] == a[0] && (a + b)[1..] == a[1..] + b;
      PathsOfTypeConcat(a[1..], b, t);
    } else {
      assert a + b == b;
    }
  }

  /** A path is offered for `t` exactly when the inventory holds it with type `t`. */
  lemma {:induction false} PathsOfTypeMember(assets: seq<AssetEntry>, t: TypeTag, p: Path)
    ensures p in PathsOfType(assets, t) <==> AssetEntry(p, t) in assets
  {
    if assets != [] {
      PathsOfTypeMember(assets[1..], t, p);
      assert AssetEntry(p, t) in assets <==> AssetEntry(p, t) == assets[0] || AssetEntry(p, t) in assets[1..];
    }
  }

  /** The listed paths whose loader produces `t`, in listing order. */
  function LoadablePaths(paths: seq<Path>, loaderFor: Path -> Option<TypeTag>, t: TypeTag): seq<Path> {
    if paths == [] then []
    else (if loaderFor(paths[0]) == Some(t) then [paths[0]] else []) + LoadablePaths(paths[1..], loaderFor, t)
  }

  /** Scan and filter together: after a scan, the picker for `t` offers
      exactly the listed paths whose loader produces `t`, in listing order. */
  lemma {:induction false} PickerOffersLoadablePaths(paths: seq<Path>, loaderFor: Path -> Option<TypeTag>, t: TypeTag)
    ensures PathsOfType(Inventory(paths, loaderFor), t) == LoadablePaths(paths, loaderFor, t)
  {
    if paths != [] {
      var head := Classify(paths[0], loaderFor);
      PathsOfTypeConcat(head, Inventory(paths[1..], loaderFor), t);
      if head != [] {
        assert head[1..] == [];
      }
      PickerOffersLoadablePaths(paths[1..], loaderFor, t);
    }
  }

  /** What `handle_ui` finds in the world in context: nothing when there is
      no world, else the two results of `get_two_resources_mut`. */
  datatype WorldLookup = WorldLookup(
    assetServer: Result<AssetServer, LookupError>,
    assetData: Result<AssetData, LookupError>)

  /**
   * `handle_ui` for a `Handle<T>` whose asset type is `t`: offer the inventory
   * paths of type `t`, and point the handle at the path picked, if any. The
   * handle, which `handle_ui` updates through `&mut`, comes in as `handle` and
   * goes out as `newHandle`. `dropdown` is the drop-down widget with the
   * user's click this frame: it may pick only among the paths it is offered.
   * The returned `changed` is always false, as `handle_ui` returns it.
   */
  method HandleUi(handle: AssetId, t: TypeTag, shortTypePath: string, world: Option<WorldLookup>,
                  dropdown: seq<Path> -> Option<Path>)
    returns (newHandle: AssetId, changed: bool, reports: seq<ErrorReport>)
    requires forall offered :: dropdown(offered).Some? ==> dropdown(offered).value in offered
    ensures !changed
    ensures world.None? ==> newHandle == handle && reports == [NoWorldInContext(shortTypePath)]
    ensures world.Some? && (world.value.assetServer.Failure? || world.value.assetData.Failure?) ==>
              && newHandle == handle
              && reports == LookupReports(world.value.assetServer, "AssetServer", world.value.assetData, "AssetData")
    ensures world.Some? && world.value.assetServer.Success? && world.value.assetData.Success? ==>
              var picked := dropdown(PathsOfType(world.value.assetData.value.assets, t));
              && reports == []
              && newHandle == if picked.Some? then world.value.assetServer.value.load(picked.value) else handle
    // The handle only ever moves to an inventory path of the handle's own type.
    ensures newHandle != handle ==>
              && world.Some? && world.value.assetServer.Success? && world.value.assetData.Success?
              && exists p :: AssetEntry(p, t) in world.value.assetData.value.assets
                             && newHandle == world.value.assetServer.value.load(p)
  {
    changed := false;
    if world.None? {
      return handle, changed, [NoWorldInContext(shortTypePath)];
    }
    var lookup := world.value;
    if lookup.assetServer.Failure? || lookup.assetData.Failure? {
      return handle, changed, LookupReports(lookup.assetServer, "AssetServer", lookup.assetData, "AssetData");
    }
    var server := lookup.assetServer.value;
    var assets := lookup.assetData.value.assets;

    var assetPaths: seq<Path> := [];
    var i := 0;
    while i < |assets|
      invariant 0 <= i <= |assets|
      invariant assetPaths == PathsOfType(assets[..i], t)
    {
      if assets[i].assetType == t {
        assetPaths := assetPaths + [assets[i].path];
      }
      assert assets[..i + 1] == assets[..i] + [assets[i]];
      PathsOfTypeConcat(assets[..i], [assets[i]], t);
      i := i + 1;
    }
    assert assets[..i] == assets;

    var selectedPath := dropdown(assetPaths);
    newHandle, reports := handle, [];
    if selectedPath.Some? {
      PathsOfTypeMember(assets, t, selectedPath.value);
      newHandle := server.load(selectedPath.value);
    }
  }
}
