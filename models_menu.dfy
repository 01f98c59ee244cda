/**
 * The model picker (`ModelsMenuController`): the folders it lists, how it
 * finds a folder's model file and thumbnail, and what selecting an item does.
 */
module ModelsMenu {
  import opened Wrappers
  import opened Strings
  import opened Platform

  /** The directory tree: the entries of every directory that can be listed. */
  type Listing = map<Url, seq<Url>>

  /** The entries of `dir`; a directory that cannot be listed has none. */
  function Entries(listing: Listing, dir: Url): seq<Url> {
    if dir in listing then listing[dir] else []
  }

  /** The entries that are directories, in listing order. */
  function Directories(entries: seq<Url>): (dirs: seq<Url>)
    ensures |dirs| <= |entries|
    ensures forall i :: 0 <= i < |dirs| ==> dirs[i].hasDirectoryPath && dirs[i] in entries
    ensures forall u :: u in entries && u.hasDirectoryPath ==> u in dirs
    decreases |entries|
  {
    if |entries| == 0 then []
    else
      var rest := Directories(entries[1..]);
      assert forall u :: u in entries[1..] ==> u in entries;
      if entries[0].hasDirectoryPath then [entries[0]] + rest else rest
  }

  /**
   * Filtering keeps listing order: the directories of a listing split in two
   * are those of the first part followed by those of the second.
   */
  lemma {:induction false} DirectoriesOfConcat(front: seq<Url>, back: seq<Url>)
    ensures Directories(front + back) == Directories(front) + Directories(back)
    decreases |front|
  {
    if |front| > 0 {
      assert (front + back)[1..] == front[1..] + back;
      DirectoriesOfConcat(front[1..], back);
    } else {
      assert front + back == back;
    }
  }

  /** The lazy `data`: the sub-directories of the menu's directory, or none when it cannot be listed. */
  function MenuItems(listing: Listing, dir: Url): seq<Url> {
    Directories(Entries(listing, dir))
  }

  /** The first entry satisfying `p`. */
  function FirstWhere(entries: seq<Url>, p: Url -> bool): (r: Option<Url>)
    ensures r.None? <==> forall i :: 0 <= i < |entries| ==> !p(entries[i])
    ensures r.Some? ==>
      exists i :: 0 <= i < |entries| && entries[i] == r.value && p(r.value) && (forall j :: 0 <= j < i ==> !p(entries[j]))
    decreases |entries|
  {
    if |entries| == 0 then None
    else if p(entries[0]) then Some(entries[0])
    else
      var r := FirstWhere(entries[1..], p);
      assert forall i :: 0 < i < |entries| ==> entries[i] == entries[1..][i - 1];
      r
  }

  /** A model file: a file URL whose extension is exactly "dae". */
  predicate IsModelFile(u: Url) {
    u.isFileURL && PathExtension(u) == "dae"
  }

  /** A thumbnail of `folder`: a file URL whose name contains the folder's name, case-sensitively, with an image extension. */
  predicate IsThumbnail(folder: Url, u: Url) {
    u.isFileURL && Contains(LastPathComponent(u), LastPathComponent(folder)) &&
    PathExtension(u) in ["jpg", "jpeg", "png"]
  }

  /** `getModelUrl(at:)`: the first model file among the folder's entries, or nil. */
  function GetModelUrl(listing: Listing, folder: Url): (r: Option<Url>)
    ensures r.Some? ==> IsModelFile(r.value) && r.value in Entries(listing, folder)
    ensures r.None? <==> forall u :: u in Entries(listing, folder) ==> !IsModelFile(u)
  {
    FirstWhere(Entries(listing, folder), IsModelFile)
  }

  /** `getThumbImage(at:)`, up to loading the image: the first thumbnail among the folder's entries, or nil. */
  function GetThumbImage(listing: Listing, folder: Url): (r: Option<Url>)
    ensures r.Some? ==> IsThumbnail(folder, r.value) && r.value in Entries(listing, folder)
    ensures r.None? <==> forall u :: u in Entries(listing, folder) ==> !IsThumbnail(folder, u)
  {
    FirstWhere(Entries(listing, folder), u => IsThumbnail(folder, u))
  }

  /** The delegate: the model URLs it has been told about, in order. */
  class MenuDelegate {
    var reports: seq<Option<Url>>

    constructor ()
      ensures reports == []
    {
      reports := [];
    }
  }

  function OptDelegate(d: MenuDelegate?): set<MenuDelegate> {
    if d == null then {} else {d}
  }

  class ModelsMenuController {
    const isSectioned: bool
    const dirUrl: Url
    /** The folders shown, computed from the listing when the controller is made. */
    const data: seq<Url>
    var delegate: MenuDelegate?
    /** The item the collection view shows as selected. */
    var selectedItem: Option<nat>
    /** The menus pushed onto the navigation stack from this one. */
    var pushed: seq<ModelsMenuController>

    /** `init(dirURL:isSectionedController:)` followed by setting the delegate. */
    constructor (listing: Listing, dirUrl: Url, isSectioned: bool, delegate: MenuDelegate?)
      ensures this.dirUrl == dirUrl && this.isSectioned == isSectioned && this.delegate == delegate
      ensures data == MenuItems(listing, dirUrl)
      ensures selectedItem == None && pushed == []
    {
      this.dirUrl := dirUrl;
      this.isSectioned := isSectioned;
      this.delegate := delegate;
      data := MenuItems(listing, dirUrl);
      selectedItem := None;
      pushed := [];
    }

    /**
     * `collectionView(_:shouldSelectItemAt:)`: tapping the selected item
     * deselects it, reports a nil model and refuses the selection; any other
     * item may be selected.
     */
    method ShouldSelectItemAt(i: nat) returns (allow: bool)
      modifies this`selectedItem, OptDelegate(delegate)`reports
      ensures old(selectedItem) == Some(i) ==>
        !allow && selectedItem == None && (delegate != null ==> delegate.reports == old(delegate.reports) + [None])
      ensures old(selectedItem) != Some(i) ==>
        allow && selectedItem == old(selectedItem) && (delegate != null ==> delegate.reports == old(delegate.reports))
    {
      if selectedItem == Some(i) {
        selectedItem := None;
        if delegate != null {
          delegate.reports := delegate.reports + [None];
        }
        return false;
      }
      return true;
    }

    /**
     * `collectionView(_:didSelectItemAt:)`: a sectioned menu pushes a plain
     * menu for the folder with the same delegate and reports nothing; a plain
     * menu reports the folder's model URL, and only when there is one.
     */
    method DidSelectItemAt(i: nat, listing: Listing)
      requires i < |data|
      modifies this`pushed, OptDelegate(delegate)`reports
      ensures isSectioned ==>
        |pushed| == |old(pushed)| + 1 && pushed[..|old(pushed)|] == old(pushed) &&
        fresh(pushed[|old(pushed)|]) &&
        pushed[|old(pushed)|].dirUrl == data[i] && !pushed[|old(pushed)|].isSectioned &&
        pushed[|old(pushed)|].delegate == delegate &&
        pushed[|old(pushed)|].data == MenuItems(listing, data[i]) &&
        (delegate != null ==> delegate.reports == old(delegate.reports))
      ensures !isSectioned ==>
        pushed == old(pushed) &&
        (delegate != null ==>
           delegate.reports == old(delegate.reports) + (if GetModelUrl(listing, data[i]).Some? then [GetModelUrl(listing, data[i])] else []))
    {
      if isSectioned {
        var controller := new ModelsMenuController(listing, data[i], false, delegate);
        pushed := pushed + [controller];
      } else {
        var modelUrl := GetModelUrl(listing, data[i]);
        if modelUrl.None? {
          return;
        }
        if delegate != null {
          delegate.reports := delegate.reports + [modelUrl];
        }
      }
    }

    /**
     * A tap on item `i` as the collection view handles it: ask
     * `shouldSelectItemAt`, and when allowed select the item and call
     * `didSelectItemAt`.
     */
    method Tap(i: nat, listing: Listing) returns (allowed: bool)
      requires i < |data|
      modifies this`selectedItem, this`pushed, OptDelegate(delegate)`reports
      ensures allowed <==> old(selectedItem) != Some(i)
      ensures selectedItem == if allowed then Some(i) else None
      ensures !allowed ==>
        pushed == old(pushed) && (delegate != null ==> delegate.reports == old(delegate.reports) + [None])
      ensures allowed && isSectioned ==>
        |pushed| == |old(pushed)| + 1 && pushed[..|old(pushed)|] == old(pushed) &&
        fresh(pushed[|old(pushed)|]) &&
        pushed[|old(pushed)|].dirUrl == data[i] && !pushed[|old(pushed)|].isSectioned &&
        pushed[|old(pushed)|].delegate == delegate &&
        pushed[|old(pushed)|].data == MenuItems(listing, data[i]) &&
        (delegate != null ==> delegate.reports == old(delegate.reports))
      ensures allowed && !isSectioned ==>
        pushed == old(pushed) &&
        (delegate != null ==>
           delegate.reports == old(delegate.reports) + (if GetModelUrl(listing, data[i]).Some? then [GetModelUrl(listing, data[i])] else []))
    {
      allowed := ShouldSelectItemAt(i);
      if allowed {
        selectedItem := Some(i);
        DidSelectItemAt(i, listing);
      }
    }
  }
}
