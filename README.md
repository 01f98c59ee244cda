# PlaceIt furniture-placement bookkeeping, in Dafny

PlaceIt is an iOS app that places 3D furniture models in an AR scene and saves
rooms. This project models the bookkeeping around the AR calls:

- **Selection and gestures** (`VirtualObjectInteraction`):
  - which object is tracked, its highlight, and where the action panel sits;
  - the screen position a pan advances;
  - rotation;
  - the copy and delete buttons of the panel.
- **The loaded-object registry** (`VirtualObjectLoader.loadedObjects`).
- **Placed objects and rooms** (`VirtualObject`, `Room`, `RoomType`, `RoomManager`):
  - model names;
  - the search for the object that owns a scene node;
  - keyed encoding and decoding;
  - the lazily cached `isArchived`;
  - the room store keyed by UUID string.
- **The extension helpers**:
  - dotted key paths and key-path access to nested dictionaries;
  - the category-bitmask walk;
  - anchor replacement;
  - the status descriptions.
- **The asset-folder rules**:
  - texture-set discovery and the coding and copying of texture records (`ModelsManager`);
  - the model picker (`ModelsMenuController`);
  - the new-room form (`CreateRoomView`).

There is one module per source file:

| module | file | source |
|---|---|---|
| `Interaction` | `interaction.dfy` | `VirtualObjectInteraction.swift` |
| `Loader` | `loader.dfy` | `VirtualObjectLoader.swift` |
| `VirtualObjects` | `virtual_object.dfy` | `VirtualObject.swift` |
| `Rooms` | `room.dfy` | `Room.swift` |
| `RoomStore` | `room_manager.dfy` | `RoomManager.swift` |
| `RoomTypes` | `room_type.dfy` | `RoomType.swift` |
| `Extensions` | `extensions.dfy` | `Extensions.swift` |
| `Textures` | `models_manager.dfy` | `ModelsManager.swift` |
| `ModelsMenu` | `models_menu.dfy` | `ModelsMenuController.swift` |
| `CreateRoom` | `create_room.dfy` | `CreateRoomView.swift` |

Four support modules stand for the platform:
- Wrappers: `Option` and `Result`.
- Strings: `contains`, ASCII `lowercased`, `replacingOccurrences`.
- Platform: UUIDs, file URLs, points, vectors, transforms, anchors and world maps.
- Archiving: `NSCoder` as a keyed record.

How the platform is represented:
- **Mutated objects are classes.** Objects whose fields the app updates in place (`VirtualObject`, `Room`, `VirtualObjectLoader`, `RoomManager`, the interaction controller, the menu controller, the room form) are classes. Their methods state the whole new state.
- **Value records are datatypes.** Records that are only built and read are datatypes.
- **The archiver is a map.** It is a map from keys to archive values. `encode(nil, forKey:)` leaves the key out, and a decode of a missing key or of a value of another class yields nil.
- **Directories are maps.** The rooms directory is a map from file name to file contents. The model directories are a map from a directory URL to its entries, in listing order. A directory that cannot be listed is one that is not in the map.
- **The AR and SceneKit calls are oracles passed as parameters:**
  - the raycast;
  - `projectPoint`;
  - `convertPosition`;
  - the hit-test (its result names, in hit order).
- **UUIDs are parameters.** The UUIDs that `UUID()` and `ARAnchor` draw are passed in.
- **Asynchronous work is a log.** Work handed to the main controller is appended to a `requests` log, in the order it is handed over.

Three behaviours of the code worth knowing:
- **`isArchived` is a lazy stored property.** It is computed on its first read and never again. On a new room it reads false, and it stays false after both blobs are set (`Rooms.ArchivedFlagStaysCached`).
- **`listAll` does not skip every bad file.** It skips only the files that unarchive to nil. A file that cannot be read, or whose bytes do not unarchive, makes the whole call throw (`RoomStore.ListAllFailsIffSomeFileFails`).
- **`getModelUrl` and `getThumbImage` test `isFileURL`.** That tests the URL's scheme, not that the entry is a regular file, so a directory named `x.dae` qualifies.

## Model

| member | source | states |
|---|---|---|
| RoomTypes.FromRawValue | PlaceIt/Enums/RoomType.swift:11-19 | `RoomType(rawValue:)` yields a case whose raw value is the string, and yields nil exactly when no case has that raw value |
| RoomTypes.DescriptionIsRawValue | PlaceIt/Enums/RoomType.swift:42-44 | `description` is the raw value |
| RoomTypes.RawValuesDistinct | PlaceIt/Enums/RoomType.swift:13-19 | two cases with the same raw value are the same case |
| RoomTypes.FromRawValueRoundTrip | PlaceIt/Enums/RoomType.swift:13-19 | parsing a case's raw value gives back that case |
| RoomTypes.AllCasesComplete | PlaceIt/Enums/RoomType.swift:11-19 | `allCases` has seven elements, contains every case and repeats none |
| VirtualObjects.VirtualObject.constructor | PlaceIt/Models/VirtualObject.swift:50-56 | a new object has the given URL and id, no anchor, no children and no highlight |
| VirtualObjects.VirtualObject.Clone | PlaceIt/Models/VirtualObject.swift:92-94 | a clone has a new id and no anchor, and keeps the source's `referenceURL`, transform, bounds and child angles |
| VirtualObjects.VirtualObject.AllowedAlignment | PlaceIt/Models/VirtualObject.swift:32-34 | the alignment is always horizontal |
| VirtualObjects.VirtualObject.SetObjectRotation | PlaceIt/Models/VirtualObject.swift:39-46 | needs a first child; afterwards `objectRotation` reads the value set, and only the first child's y angle has changed |
| VirtualObjects.VirtualObject.ToggleHighlight | PlaceIt/Managers/VirtualObjectInteraction.swift:27-28 | the highlight flag is negated |
| VirtualObjects.VirtualObject.SetPosition | PlaceIt/Managers/VirtualObjectInteraction.swift:127 | only the translation of the transform changes, to the given position |
| VirtualObjects.VirtualObject.AddChildNode | PlaceIt/Managers/VirtualObjectLoader.swift:32 | the child is appended after the existing children, and the bounds become the child's |
| VirtualObjects.ModelNameOfDaeFile | PlaceIt/Models/VirtualObject.swift:21-23 | the model name of "<base>.dae", where base holds no ".dae", is base |
| VirtualObjects.DecodeObject | PlaceIt/Models/VirtualObject.swift:68-77 | decoding succeeds exactly when id, `referenceURL` and anchor are all present with the right classes, and returns those values |
| VirtualObjects.ObjectCodingRoundTrip | PlaceIt/Models/VirtualObject.swift:68-84 | encode then decode gives back id, URL and anchor when there is an anchor, and fails when there is none |
| VirtualObjects.ExistingObjectContainingNode | PlaceIt/Models/VirtualObject.swift:112-121 | a result is a node of the scene and is a virtual object |
| VirtualObjects.ContainingObjectIsNearest | PlaceIt/Models/VirtualObject.swift:112-121 | the search returns the first virtual object on the node's ancestor chain, starting with the node itself, and returns nil exactly when the chain holds none |
| Loader.FirstIndexOf | PlaceIt/Managers/VirtualObjectLoader.swift:42 | `firstIndex(of:)` is nil exactly when the element is absent; otherwise it is an index holding the element, with no earlier occurrence |
| Loader.RemovingAbsent | PlaceIt/Managers/VirtualObjectLoader.swift:42 | removing an absent object leaves the list as it is |
| Loader.RemovingPresent | PlaceIt/Managers/VirtualObjectLoader.swift:41-54 | removing a present object drops exactly its first occurrence: one element fewer, multiset minus that object, the others in order |
| Loader.VirtualObjectLoader.constructor | PlaceIt/Managers/VirtualObjectLoader.swift:16 | the registry starts empty |
| Loader.VirtualObjectLoader.LoadObject | PlaceIt/Managers/VirtualObjectLoader.swift:23-37 | a fresh object for the URL, whose one child is the loaded model, is appended after the existing entries and returned |
| Loader.VirtualObjectLoader.RemoveObject | PlaceIt/Managers/VirtualObjectLoader.swift:41-54 | the registry becomes the old list without the first occurrence of the object, and is unchanged when the object is absent |
| Loader.VirtualObjectLoader.SetLoadedObjects | PlaceIt/Managers/VirtualObjectLoader.swift:58-60 | the registry becomes the given list |
| Archiving.EncodeOptional | PlaceIt/Models/Room.swift:75-76 | encoding a nil value leaves the archive unchanged; a present value is stored under its key; every other key is unchanged |
| Rooms.DecodeRoom | PlaceIt/Models/Room.swift:58-69 | decoding succeeds exactly when id, name and type are present and the type string is a room type's raw value; the decoded room carries the archive's id and name, and the blobs are taken as decoded, nil when absent |
| Rooms.RoomCodingRoundTrip | PlaceIt/Models/Room.swift:58-77 | encode then decode preserves id, name, type and both optional blobs |
| Rooms.DecodeItems | PlaceIt/Models/Room.swift:110 | a decoded array has one object per archived item |
| Rooms.UnarchiveObjects | PlaceIt/Models/Room.swift:108-114 | a missing blob throws; otherwise the result is a list exactly when the blob is an archived array whose every item decodes, with one object per item |
| Rooms.UnarchiveWorldMap | PlaceIt/Models/Room.swift:99-105 | a missing blob throws; a world map is returned exactly when the blob archives one, and it is that map |
| Rooms.ObjectsRoundTrip | PlaceIt/Models/Room.swift:93-114 | archiving objects and reading them back succeeds exactly when every object has an anchor, and then yields their ids, URLs and anchors in order |
| Rooms.Room.constructor | PlaceIt/Models/Room.swift:42-46 | a new room has its name, type and drawn id, no blobs, and an unread `isArchived` |
| Rooms.Room.Decoded | PlaceIt/Models/Room.swift:58-69 | a decoded room holds the decoded fields, and its `isArchived` is unread |
| Rooms.Room.IsArchived | PlaceIt/Models/Room.swift:36-38 | the first read computes "both blobs present" and stores it; later reads return the stored value |
| Rooms.Room.SetWorldMap | PlaceIt/Models/Room.swift:87-90 | only the world-map blob changes, and `getWorldMap` then returns the map set |
| Rooms.Room.SetObjects | PlaceIt/Models/Room.swift:93-96 | only the objects blob changes; `getObjects` then succeeds exactly when every object has an anchor, and returns the objects' fields in order |
| Rooms.Room.GetWorldMap | PlaceIt/Models/Room.swift:99-105 | throws when the blob is absent, and returns a map only when the blob archives that map |
| Rooms.Room.GetObjects | PlaceIt/Models/Room.swift:108-114 | throws when the blob is absent, and returns one object per archived item |
| Rooms.ArchivedFlagStaysCached | PlaceIt/Models/Room.swift:36-46 | on a new room `isArchived` first reads false, and still reads false after both blobs have been set |
| RoomStore.UnarchiveRoom | PlaceIt/Managers/RoomManager.swift:61 | unarchiving throws unless the bytes are an archive whose root is an object; that root is then decoded as a room, nil when decoding fails |
| RoomStore.LoadFrom | PlaceIt/Managers/RoomManager.swift:58-62 | a missing or unreadable file throws a read error; a readable one is unarchived |
| RoomStore.RoomManager.constructor | PlaceIt/Managers/RoomManager.swift:33-40 | the store starts with the files already in the directory |
| RoomStore.RoomManager.Save | PlaceIt/Managers/RoomManager.swift:52-56 | the archived room is written under its UUID string, replacing any earlier file; no other file changes |
| RoomStore.RoomManager.Load | PlaceIt/Managers/RoomManager.swift:58-62 | loading an id with no file throws; a success comes from a readable archive stored under that id |
| RoomStore.RoomManager.ListAll | PlaceIt/Managers/RoomManager.swift:64-81 | the loop returns the first error any file throws, or else the rooms that decoded, in listing order, skipping files that unarchive to nil |
| RoomStore.ErrorPersists | PlaceIt/Managers/RoomManager.swift:69-71 | once a file throws, the whole listing throws that error |
| RoomStore.LoadAfterSave | PlaceIt/Managers/RoomManager.swift:52-62 | loading by the UUID string after saving gives back a room with the same fields |
| RoomStore.SaveKeepsOtherRooms | PlaceIt/Managers/RoomManager.swift:52-56 | saving one room leaves every other room's load result unchanged |
| RoomStore.ListAllFailsIffSomeFileFails | PlaceIt/Managers/RoomManager.swift:68-71 | `listAll` throws exactly when some listed file cannot be read or unarchived |
| RoomStore.ListAllReturnsDecodedRooms | PlaceIt/Managers/RoomManager.swift:64-80 | when nothing throws, `listAll` returns exactly the rooms the files decode to, in listing order, never more than there are files |
| Extensions.Split | PlaceIt/Extensions/Extensions.swift:124-126 | splitting yields at least one segment, and no segment contains "." |
| Extensions.FromString | PlaceIt/Extensions/Extensions.swift:124-126 | a key path built from a string, even the empty string, is never empty |
| Extensions.KeyPath.HeadAndTail | PlaceIt/Extensions/Extensions.swift:113-118 | nil exactly when there are no segments; otherwise the head followed by the tail's segments is the whole path |
| Extensions.PathOfParsedKeyPath | PlaceIt/Extensions/Extensions.swift:106-126 | building a key path from a string and reading its `path` gives the string back |
| Extensions.ParseOfPath | PlaceIt/Extensions/Extensions.swift:106-126 | joining dot-free segments and parsing the result gives the segments back |
| Extensions.GetKeyPath | PlaceIt/Extensions/Extensions.swift:156-179 | nil on an empty path; a direct lookup on one segment; a result only when every segment before the last names a nested dictionary |
| Extensions.SetKeyPath | PlaceIt/Extensions/Extensions.swift:180-202 | an empty path changes nothing; otherwise no key other than the head changes |
| Extensions.GetAfterSet | PlaceIt/Extensions/Extensions.swift:156-202 | reading a path just set through nested dictionaries gives the value set, and nil after setting nil |
| Extensions.SetOffPathUnchanged | PlaceIt/Extensions/Extensions.swift:189-199 | setting through a path that does not run through dictionaries leaves the dictionary unchanged |
| Extensions.MarkedAreEligibleNodes | PlaceIt/Extensions/Extensions.swift:82-97 | the walk marks exactly the nodes of the whole hierarchy that are unnamed or not excluded, including those below excluded nodes |
| Extensions.CategoryMasks.SetCategoryBitMaskForAllHierarchy | PlaceIt/Extensions/Extensions.swift:82-97 | the masks become the old masks with every node the walk marks set to the mask; every other node keeps its mask |
| Extensions.CategoryMasks.SetDefaultCategoryBitMask | PlaceIt/Extensions/Extensions.swift:82-97 | called with its defaults (mask 2, no excluded names), the walk gives every node of the hierarchy the mask 2 and keeps every other mask |
| Extensions.ExcludedNodeNotMarked | PlaceIt/Extensions/Extensions.swift:84-91 | with unique node ids, a node whose name is excluded does not receive the mask |
| Extensions.ReplacedAnchorsSwapsOne | PlaceIt/Extensions/Extensions.swift:67-78 | after replacement the new anchor is in the session, the previous one is not (unless it is the new one), and every other anchor is kept |
| Extensions.AddOrUpdateAnchor | PlaceIt/Extensions/Extensions.swift:67-78 | the object's anchor becomes a new anchor at its transform, and the session swaps the previous anchor for it |
| Extensions.MappingDescriptionsDistinct | PlaceIt/Extensions/Extensions.swift:219-234 | two mapping statuses have the same description exactly when they are equal |
| Extensions.TrackingDescriptionsDistinct | PlaceIt/Extensions/Extensions.swift:237-256 | two tracking states have the same description exactly when they are equal; "Unspecified Reason" is given only for an unlisted reason |
| Extensions.TrackingFeedbackDistinct | PlaceIt/Extensions/Extensions.swift:259-284 | two tracking states get the same feedback exactly when they are equal; the generic text is given only for an unlisted reason |
| Interaction.PanelWorldPosition | PlaceIt/Managers/VirtualObjectInteraction.swift:35-41 | the panel sits above the object by its height plus 0.15, at the same x and z |
| Interaction.CopyPosition | PlaceIt/Managers/VirtualObjectInteraction.swift:121-123 | a copy is shifted along x by the object's width less 0.2, at the same y and z |
| Interaction.DragFollowsFirstProjection | PlaceIt/Managers/VirtualObjectInteraction.swift:156-163 | from an empty cache, a run of pan steps ends at the first projection plus the sum of the translations |
| Interaction.TapActions | PlaceIt/Managers/VirtualObjectInteraction.swift:117-138 | a tap produces at most one action per hit |
| Interaction.TapActsIffButtonHit | PlaceIt/Managers/VirtualObjectInteraction.swift:117-138 | a tap acts exactly when some hit node is named "0" or "1" |
| Interaction.ClonedAt | PlaceIt/Managers/VirtualObjectInteraction.swift:126-127 | the copy is a new object with the source's URL, bounds and child angles, no anchor, and its transform moved to the position |
| Interaction.VirtualObjectInteraction.constructor | PlaceIt/Managers/VirtualObjectInteraction.swift:50-53 | nothing is tracked, the panel is detached at zero, and there is no cached position |
| Interaction.VirtualObjectInteraction.SetTrackedObject | PlaceIt/Managers/VirtualObjectInteraction.swift:24-48 | assigning the current value does nothing; a change toggles the old and the new object's highlight once each and detaches the panel at zero, then attaches it to the new object at the converted panel position; "exactly the tracked object is highlighted" is preserved |
| Interaction.VirtualObjectInteraction.Deselect | PlaceIt/Managers/VirtualObjectInteraction.swift:125 | nothing is tracked afterwards; a previously tracked object toggles its highlight and the panel is detached at zero |
| Interaction.VirtualObjectInteraction.UpdatedTrackingPosition | PlaceIt/Managers/VirtualObjectInteraction.swift:156-163 | the result is the cached position, or the projection when there is none, plus the translation, and it becomes the cache |
| Interaction.VirtualObjectInteraction.Translate | PlaceIt/Managers/VirtualObjectInteraction.swift:165-171 | the object takes the transform of the horizontal raycast hit, and stays put on a miss |
| Interaction.VirtualObjectInteraction.DidPan | PlaceIt/Managers/VirtualObjectInteraction.swift:76-101 | a change past the threshold with a tracked object moves it and zeroes the translation; `.began`, a change below the threshold or with nothing tracked change nothing; `.ended` with a tracked object queues one anchor update and clears the cache, and with nothing tracked keeps the cache; any other state clears the cache |
| Interaction.VirtualObjectInteraction.DidRotate | PlaceIt/Managers/VirtualObjectInteraction.swift:106-112 | only a change with a tracked object acts: the rotation is subtracted from `objectRotation`, other child angles are kept, and the gesture's rotation becomes 0 |
| Interaction.VirtualObjectInteraction.ActOnHit | PlaceIt/Managers/VirtualObjectInteraction.swift:118-138 | "0" deselects and hands over a fresh copy shifted along x; "1" hands the object over for removal and deselects; any other name changes nothing |
| Interaction.VirtualObjectInteraction.DidTap | PlaceIt/Managers/VirtualObjectInteraction.swift:114-141 | with nothing tracked nothing happens; otherwise every hit named "0" or "1", in hit order, hands over its request for the originally tracked object, and the selection is cleared exactly when there was at least one |
| Textures.ClassifyTakesFirstKeyword | PlaceIt/Managers/ModelsManager.swift:114-123 | a file is of a kind exactly when its lower-cased name contains that kind's word and none ranked before it, and is ignored exactly when it contains none |
| Textures.KindPresentIffSomeFile | PlaceIt/Managers/ModelsManager.swift:112-124 | a kind has a URL exactly when some file of the folder is of that kind |
| Textures.LastFileOfKindWins | PlaceIt/Managers/ModelsManager.swift:112-124 | a kind's URL is the last file of that kind in listing order |
| Textures.NodeTexturesKeyedByFolderName | PlaceIt/Managers/ModelsManager.swift:107-134 | a texture set has an entry exactly for the names of node folders that can be listed, each entry stored under its own node name |
| Textures.ObjectTexturesOf | PlaceIt/Managers/ModelsManager.swift:101-138 | there are never more texture records than texture folders |
| Textures.OneRecordPerTextureFolder | PlaceIt/Managers/ModelsManager.swift:101-138 | when every texture folder can be listed, the i-th record is built from the i-th folder |
| Textures.CollectTextureUrls | PlaceIt/Managers/ModelsManager.swift:112-124 | the material-file loop computes the kind-to-URL map of the folder's files |
| Textures.CollectNodeTextures | PlaceIt/Managers/ModelsManager.swift:105-134 | the node-folder loop computes the node textures of the set, skipping folders that cannot be listed |
| Textures.GetTextures | PlaceIt/Managers/ModelsManager.swift:90-141 | the result is nothing when `<model dir>/Textures` cannot be listed, and otherwise one record per texture folder that can be listed, in listing order |
| Textures.DecodeNodeTexture | PlaceIt/Managers/ModelsManager.swift:26-34 | decoding fails exactly when the node name is missing |
| Textures.NodeTextureRoundTrip | PlaceIt/Managers/ModelsManager.swift:26-42 | encode then decode preserves all five fields, nil URLs included |
| Textures.DecodeObjectTexture | PlaceIt/Managers/ModelsManager.swift:63-68 | decoding succeeds exactly when "nodeTextures" holds a dictionary whose every value decodes as a node texture, keeping its keys |
| Textures.ObjectTextureRoundTrip | PlaceIt/Managers/ModelsManager.swift:63-72 | encode then decode preserves every node texture under its key |
| Textures.CopyNodeTexture | PlaceIt/Managers/ModelsManager.swift:44-50 | the copy has the same five fields |
| Textures.CopyObjectTexture | PlaceIt/Managers/ModelsManager.swift:74-78 | the copy has the same keys and a field-equal node texture under each |
| Textures.CopyIsIndistinguishable | PlaceIt/Managers/ModelsManager.swift:74-78 | the copy equals the original, so archiving the copy and reading it back gives the original texture set |
| ModelsMenu.Directories | PlaceIt/Controllers/ModelsMenu/ModelsMenuController.swift:21-29 | the menu items are entries of the listing, every one a directory, and every directory entry is among them |
| ModelsMenu.DirectoriesOfConcat | PlaceIt/Controllers/ModelsMenu/ModelsMenuController.swift:25 | the filter keeps listing order: the directories of two listings one after the other are those of the first followed by those of the second |
| ModelsMenu.FirstWhere | PlaceIt/Controllers/ModelsMenu/ModelsMenuController.swift:139-142 | `first(where:)` is nil exactly when no entry qualifies; otherwise it is an entry that qualifies with none before it |
| ModelsMenu.GetModelUrl | PlaceIt/Controllers/ModelsMenu/ModelsMenuController.swift:133-143 | the result is a file entry of the folder whose extension is exactly "dae", and nil exactly when there is none |
| ModelsMenu.GetThumbImage | PlaceIt/Controllers/ModelsMenu/ModelsMenuController.swift:116-131 | the result is a file entry whose name contains the folder's name and whose extension is jpg, jpeg or png, and nil exactly when there is none |
| ModelsMenu.ModelsMenuController.constructor | PlaceIt/Controllers/ModelsMenu/ModelsMenuController.swift:42-47 | the menu keeps its directory, its kind and its delegate, and lists the directory's sub-directories, with nothing selected |
| ModelsMenu.ModelsMenuController.ShouldSelectItemAt | PlaceIt/Controllers/ModelsMenu/ModelsMenuController.swift:88-98 | tapping the selected item deselects it, reports nil and refuses; any other item is allowed and nothing is reported |
| ModelsMenu.ModelsMenuController.DidSelectItemAt | PlaceIt/Controllers/ModelsMenu/ModelsMenuController.swift:100-110 | a sectioned menu pushes a plain menu for the folder with the same delegate and reports nothing; a plain menu reports the folder's model URL only when there is one |
| ModelsMenu.ModelsMenuController.Tap | PlaceIt/Controllers/ModelsMenu/ModelsMenuController.swift:88-110 | a tap is allowed exactly when the item is not the selected one, and the item is then selected; tapping the selected item reports nil to the delegate and pushes nothing; an allowed tap on a section pushes one fresh item menu for that directory, and on an item reports its model URL when it has one |
| CreateRoom.ReplaceRange | PlaceIt/Controllers/CreateRoom/CreateRoomView.swift:216-217 | the proposed text keeps the text before the range and after it, with the replacement in between |
| CreateRoom.AsWrittenEdit | PlaceIt/Controllers/CreateRoom/CreateRoomView.swift:215-226 | the edit is accepted exactly when the proposed text has at most 20 characters, and "Continue" is enabled exactly when it has at least 5, accepted or not |
| CreateRoom.RefusedEditEnablesShortName | PlaceIt/Controllers/CreateRoom/CreateRoomView.swift:219-225 | with "abc" in the field, pasting 18 characters is refused yet enables "Continue" for a 3-character name |
| CreateRoom.IntendedEditKeepsNameInSync | PlaceIt/Controllers/CreateRoom/CreateRoomView.swift:215-226 | with the button computed from the text the field keeps, every edit preserves "enabled exactly when the name has at least 5 characters, and at most 20", and the same edits are accepted |
| CreateRoom.CreateRoomView.constructor | PlaceIt/Controllers/CreateRoom/CreateRoomView.swift:85-110 | the form starts with a closed dropdown showing "Select Room Type", an empty name and "Continue" disabled |
| CreateRoom.CreateRoomView.SetDropDownOpen | PlaceIt/Controllers/CreateRoom/CreateRoomView.swift:13-22 | open gives the table a height of 200 and hides the label; closed, the height is 50 and the table is hidden |
| CreateRoom.CreateRoomView.SetSelectedType | PlaceIt/Controllers/CreateRoom/CreateRoomView.swift:23-27 | the label shows the selected type's raw value, or nil |
| CreateRoom.CreateRoomView.DropdownLabelTapped | PlaceIt/Controllers/CreateRoom/CreateRoomView.swift:173-175 | a label tap toggles the dropdown, and its views follow |
| CreateRoom.CreateRoomView.NumberOfRows | PlaceIt/Controllers/CreateRoom/CreateRoomView.swift:183-185 | there are seven rows, and the rows list every room type |
| CreateRoom.CreateRoomView.DidSelectRowAt | PlaceIt/Controllers/CreateRoom/CreateRoomView.swift:197-201 | selecting row i selects `allCases[i]`, shows its raw value and toggles the dropdown |
| CreateRoom.CreateRoomView.ShouldChangeCharactersIn | PlaceIt/Controllers/CreateRoom/CreateRoomView.swift:215-226 | the delegate's answer and the button follow the written rule on the proposed text |
| CreateRoom.CreateRoomView.EditName | PlaceIt/Controllers/CreateRoom/CreateRoomView.swift:215-226 | the field takes the proposed text only when the delegate accepts it, and the button follows the proposed text either way |

## Left out

- AR and SceneKit are not interpreted. This covers the raycast, `hitTest`, `projectPoint`, `convertPosition`, `session.add`/`remove`, `SCNReferenceNode` loading and unloading, and geometry and material copying. The calls the logic depends on are function parameters; the rest is omitted.
- Animations, styling and layout are omitted. This includes the scale and panel animations, constraints, colours and scrolling the table back to its first row, because they have no effect on the modelled state.
- Dispatch: the background load runs as a sequential step (`LoadObject`). The anchor update queued on the update queue is recorded as an `UpdateAnchor` request and not applied. The delayed `removeFromParentNode` after a removal and the scale-down animation are not modelled: `RemoveObject` only edits the list of loaded objects.
- Scene nodes are identified by an id, and masks are kept by id. The bitmask lemmas speak of node objects only for hierarchies satisfying `UniqueIds`. Where two nodes share an id, the model gives the mask to both, whereas the code sets it per node object.
- The completion of a placement request is not modelled. It selects the copy, which is `SetTrackedObject` with the copy.
- `Float` and `CGFloat` are `real`, without rounding. Only the translation column of a transform is read, and placed objects are taken to hang directly under the scene's root, so `position` equals the world position.
- The binary format of `NSKeyedArchiver`, `Data.write`, `Data(contentsOf:)` and the creation of the rooms directory are not modelled. A failed write or a failed archive is not modelled either.
- Directory listing is a parameter. `listAll` and `getTextures` receive the listing, so an error thrown by listing the rooms directory itself is not modelled.
- `toggleHighlight` is a flip of one boolean, because its body is not part of this model. `ThresholdPanGesture` is reduced to its `isThresholdExceeded` flag and its translation.
- `MainController.placeVirtualObject` and `removeVirtualObject` are not part of this model. They are recorded as requests.
- `ARSCNView.virtualObject(at:)`, `ARWorldMap.snapshotAnchor`, the `CGPoint`, `float4x4` and `UIGestureRecognizer` helpers, `RoomType.image` and the typed `string:`/`dict:` key-path subscripts are not modelled.
- Loading the thumbnail image from the chosen URL is not modelled.
- Text is a sequence of characters: NSString counts UTF-16 units. `lowercased()` folds only ASCII letters.
- VirtualObjects.ModelNameOf: its own contract bounds only the length; what the name is, for a "<base>.dae" file, is stated by `VirtualObjects.ModelNameOfDaeFile`.
- Textures.GetTextures: takes the model URL itself; the `guard` on an optional `referenceURL` at PlaceIt/Managers/ModelsManager.swift:91 has no counterpart, because `referenceURL` is not optional on `VirtualObject`.
- ModelsMenu.ModelsMenuController.ShouldSelectItemAt: the cell's `isSelected` is the controller's `selectedItem`, and the collection view's own selection bookkeeping is reduced to `Tap`.
- ModelsMenu.GetModelUrl: a folder the enumerator cannot open yields no entries, instead of the force-unwrap failing.
- Interaction.VirtualObjectInteraction.DidRotate: requires a first child node when it acts, as the force-unwrap of `childNodes.first` does.
- CreateRoom.CreateRoomView.ShouldChangeCharactersIn: requires the range to lie within the text, as NSString's range check does.
- The status mappings use the text "—" (an em dash) in the relocalizing feedback at PlaceIt/Extensions/Extensions.swift:276, where the file shows that character mis-encoded.

## Findings

| source | as written | input that shows it | evidently intended | confidence | as-written member | corrected member |
|---|---|---|---|---|---|---|
| PlaceIt/Controllers/CreateRoom/CreateRoomView.swift:215-226 | "Continue" is enabled or disabled from the proposed text even when the edit is refused, so the button can disagree with the name the field keeps | field holds "abc", paste 18 characters at offset 3: the proposed text has 21 characters, so the edit is refused but "Continue" is enabled for a 3-character name | the button follows the text the field holds after the edit | not executed; high that the behaviour is as written, medium that it is unintended | CreateRoom.RefusedEditEnablesShortName | CreateRoom.IntendedEditKeepsNameInSync |

The view's own methods (`ShouldChangeCharactersIn`, `EditName`) follow the code as written. `CreateRoom.IntendedEdit` is the corrected rule, with its invariant proved.
