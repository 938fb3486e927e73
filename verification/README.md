# Image previews and the asset picker of bevy-inspector-egui, in Dafny

This project models two pieces of the `bevy-inspector-egui` inspector.

1. **The scaled-down preview cache** (`inspector_egui_impls/image.rs`). The
   `Handle<Image>` widget does not draw an image at full size. It draws a
   derivative resized to fit `RESCALE_TO_FIT` = 100x100.
   `ScaledDownTextures` maps each original image handle to its derivative's
   handle. It also keeps the set of handles that are derivatives.
   `rescaled_image` has four outcomes:
   - a hit returns the stored derivative;
   - a handle that is itself a derivative gets nothing;
   - an original that is missing from `Assets<Image>`, or whose format does
     not convert, gets nothing and changes nothing;
   - a successful miss resizes the image, adds the result as a new asset,
     records it, and returns it.

   `update_and_show_image` first borrows the two resources it needs. When
   either borrow fails it draws one error per failure and stops.
2. **The asset inventory and the handle picker** (`inspector_egui_impls/handle.rs`).
   `update_assets` lists the root of the default asset source once. It keeps
   each path that some asset loader accepts, tagged with the type that loader
   produces, in listing order. It publishes the list as the `AssetData`
   resource, replacing the previous one. A listing that fails publishes an
   empty inventory. `handle_ui` offers the inventory paths whose type is the
   handle's asset type. It repoints the handle only when the user picks one of
   them, and it always returns `false`.

Files:
- `wrappers.dfy`: `Option` and `Result`.
- `engine.dfy`: the engine collaborators. Handles are asset ids.
  `Assets<Image>` is the class `ImageAssets`, and `StoreState` is its value.
  `add` hands out fresh ids. `LookupError` and `ErrorReport` are the errors
  the widgets draw.
- `image_cache.dfy`: `image.rs`. `Rescaled` is `rescaled_image` on values, and
  its contract states the four outcomes and the cache invariant (`Coherent`).
  `RescaledImage` is the same operation on the `ScaledDownTextures` and
  `ImageAssets` objects, proved equal to `Rescaled`.
- `asset_inventory.dfy`: `handle.rs`. `Inventory` and `PathsOfType` are the
  two order-preserving filters. `UpdateAssets` and `HandleUi` build them with
  loops, which are proved against them.

Modelling choices:
- A `Handle<T>` compares and hashes by its asset id, so a handle is its id.
  The weak and strong forms are therefore the same value.
- The pixel pipeline is three function fields of `Conversion`:
  `try_into_dynamic`, the image crate's `resize` with the Triangle filter,
  and `from_dynamic`. The cache never looks inside them.
- `EguiUserTextures::add_image` is the function parameter `addImage`.
- The results of `get_two_resources_mut` are inputs. A missing world is
  `Option.None`.
- The error drawn when `EguiUserTextures` cannot be borrowed is labelled with
  the type name `EguiContext`. The source does this, and the model keeps it.
- `handle_ui` writes the handle through `&mut`. `HandleUi` takes the handle
  in and returns the new one.
- The drop-down, an external widget, is the parameter `dropdown`. It may pick
  only among the paths it is offered.

## Model

| member | source | states |
|---|---|---|
| `Engine.StoreState.Add` | crates/bevy-inspector-egui/src/inspector_egui_impls/image.rs:153 | `Assets::add` stores the image under an id that was not in use before, and changes nothing else |
| `Engine.ImageAssets.Add` | crates/bevy-inspector-egui/src/inspector_egui_impls/image.rs:153 | the in-place store changes exactly as `StoreState.Add` says, and its allocator invariant is kept |
| `Engine.ImageAssets.Get` | crates/bevy-inspector-egui/src/inspector_egui_impls/image.rs:143 | collaborator stub: `Assets::get` is taken to be a lookup in the store's map, so it finds an image exactly when one is stored under the id |
| `Engine.LookupReports` | crates/bevy-inspector-egui/src/inspector_egui_impls/image.rs:65-72 | one error per failed lookup: the first resource's error first, then the second's |
| `ImageCache.Derive` | crates/bevy-inspector-egui/src/inspector_egui_impls/image.rs:145-151 | a preview can be made exactly when the format converts |
| `ImageCache.DeriveKeepsEncoding` | crates/bevy-inspector-egui/src/inspector_egui_impls/image.rs:145-151 | the sRGB flag that decoding reports is the one used to encode, so when the conversions are faithful the preview is sRGB exactly when the original is |
| `ImageCache.DeriveFitsBox` | crates/bevy-inspector-egui/src/inspector_egui_impls/image.rs:125-151 | the resize target is `RESCALE_TO_FIT`: when the resize scales to the largest size that fits its box, the preview is at most 100x100 and exactly 100 wide or exactly 100 high |
| `ImageCache.Rescaled` | crates/bevy-inspector-egui/src/inspector_egui_impls/image.rs:127-164 | the four outcomes. A hit returns the stored derivative and changes nothing. A known derivative gets nothing. A missing or unconvertible original gets nothing and changes nothing. A successful miss adds exactly one new asset, the entry `handle -> derivative` and the derivative to the known set, and returns that derivative. The cache invariant is kept |
| `ImageCache.RepeatIsHit` | crates/bevy-inspector-egui/src/inspector_egui_impls/image.rs:133-159 | after a call that yields a preview, a second call on the same handle returns the same derivative and changes neither the cache nor the store |
| `ImageCache.DerivativeIsNeverRescaled` | crates/bevy-inspector-egui/src/inspector_egui_impls/image.rs:138-141 | under the invariant, a known derivative never gets a preview of its own and changes nothing |
| `ImageCache.RescaleAllResizesOncePerOriginal` | crates/bevy-inspector-egui/src/inspector_egui_impls/image.rs:133-157 | over any run of calls: the invariant holds, a mapped original keeps its derivative, and the store grows by exactly one image per newly mapped original |
| `ImageCache.ScaledDownTextures.constructor` | crates/bevy-inspector-egui/src/inspector_egui_impls/image.rs:119-123 | the default cache has an empty map and an empty derivative set |
| `ImageCache.RescaledImage` | crates/bevy-inspector-egui/src/inspector_egui_impls/image.rs:127-164 | the in-place lookup leaves the cache and the store in the states `Rescaled` gives, and returns its result |
| `ImageCache.UpdateAndShowImage` | crates/bevy-inspector-egui/src/inspector_egui_impls/image.rs:57-95 | if either resource borrow fails, one error is drawn per failure and nothing is touched. Otherwise the cache moves as `Rescaled` says, and the result is the `<texture>` label or the preview. The preview is always in the store, so the `unwrap` cannot fail |
| `AssetInventory.InventoryConcat` | crates/bevy-inspector-egui/src/inspector_egui_impls/handle.rs:109-113 | assembly keeps listing order: the inventory of a listing is the concatenation of the inventories of its parts |
| `AssetInventory.InventoryMember` | crates/bevy-inspector-egui/src/inspector_egui_impls/handle.rs:109-113 | `(p, t)` is in the inventory exactly when `p` was listed and its loader produces `t`; paths without a loader are skipped |
| `AssetInventory.InventoryLength` | crates/bevy-inspector-egui/src/inspector_egui_impls/handle.rs:103-113 | the inventory is never longer than the listing, and is as long exactly when every listed path has a loader |
| `AssetInventory.Scan` | crates/bevy-inspector-egui/src/inspector_egui_impls/handle.rs:103-120 | a failed directory read yields an empty inventory; a successful one yields the inventory of the listing, with at most one entry per listed path |
| `AssetInventory.UpdateAssets` | crates/bevy-inspector-egui/src/inspector_egui_impls/handle.rs:98-123 | `AssetData` becomes the scanned inventory, replacing the previous value wholesale; nothing else in the world changes |
| `AssetInventory.PathsOfTypeConcat` | crates/bevy-inspector-egui/src/inspector_egui_impls/handle.rs:41-46 | the type filter keeps inventory order |
| `AssetInventory.PathsOfTypeMember` | crates/bevy-inspector-egui/src/inspector_egui_impls/handle.rs:41-46 | a path is offered for type `t` exactly when the inventory holds it with type `t` |
| `AssetInventory.PickerOffersLoadablePaths` | crates/bevy-inspector-egui/src/inspector_egui_impls/handle.rs:41-46 | after a scan, the picker for `t` offers exactly the listed paths whose loader produces `t`, in listing order |
| `AssetInventory.HandleUi` | crates/bevy-inspector-egui/src/inspector_egui_impls/handle.rs:17-85 | always returns `false`. With no world it draws the no-world error and leaves the handle alone. If a resource lookup fails it draws one error per failed lookup and leaves the handle alone. Otherwise the drop-down is offered exactly the type-`T` inventory paths in order, and the handle becomes `load(path)` only when a path is picked. A changed handle always comes from an inventory path of type `T` |

## Left out

- Drawing: egui widgets, `show_image`, the collapsing header for textures of 128 or more pixels (a float comparison), `DropDownBox` and `selectable_label`. These are presentation only.
- The drop-down's matching of the query text, done inside the external `egui_dropdown` crate, and the search text kept in egui's temporary data between frames. `HandleUi` treats the drop-down as a function from the offered paths to the pick.
- Pixel work: `image_texture_conversion` is not part of this model, and neither is the image crate's Triangle-filter resize. Both are opaque functions. The 100x100 fit and sRGB round trip are proved only under assumed contracts for them (`KeepsEncoding`, `ResizesToFit`).
- The global `Lazy<Mutex<ScaledDownTextures>>`. The cache is an object passed explicitly. The source holds the lock across the whole lookup, so the calls are sequential.
- Weak versus strong handles. Equality is by id, so the model cannot express the lifetime difference, and no asset is ever removed from the store.
- `EguiUserTextures::add_image` is not part of this model. It is a deterministic function of the handle, so its internal id allocation is not captured.
- The async task pool, the `AssetSource` reader, stream polling and `asset_server.load`. The listing is a `Result` of a path sequence, the loader lookup is a partial function, and `load` is an opaque function. The listing is not recursive.
- `UpdateAssets`: the panics of `world.resource::<AssetServer>()` and `get_source(..).unwrap()` become its `requires`.
- The `to_str().unwrap()` panic on non-UTF-8 paths: paths are strings. Logging (`info!`) and the text of errors drawn by `show_error` are also out.
- The `InspectorPrimitive` implementation for `Handle<Image>` (`ui`, `ui_readonly`). It only chains the no-world check, `update_and_show_image` and `handle_ui`, each of which is modelled.
