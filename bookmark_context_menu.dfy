/**
 * The context menu shown for a selection of bookmark nodes: which items the
 * menu lists for a configuration and a selection, which of its commands are
 * enabled, and the state a command leaves behind (the controller detaches
 * itself from the bookmark model, and Remove empties the selection after
 * asking the model to remove each selected node).
 */
module BookmarkContextMenu {
  import opened Wrappers

  // ---------------------------------------------------------------------
  // Bookmark nodes.

  /** The kinds of bookmark node; every kind other than Url is a folder. */
  datatype NodeType = Url | Folder | BookmarkBarFolder | OtherFolder

  /**
   * A node of the bookmark tree: its id, its kind, the id of its parent
   * (None for the root) and its children in order.
   */
  datatype BookmarkNode = BookmarkNode(id: nat, nodeType: NodeType, parent: Option<nat>, children: seq<BookmarkNode>)

  predicate IsUrl(n: BookmarkNode)
  {
    n.nodeType == Url
  }

  predicate IsFolder(n: BookmarkNode)
  {
    n.nodeType != Url
  }

  /** The node reached from `n` by following the child indices of `path`. */
  function Descendant(n: BookmarkNode, path: seq<nat>): (d: Option<BookmarkNode>)
    ensures path == [] ==> d == Some(n)
    decreases |path|
  {
    if path == [] then Some(n)
    else if path[0] < |n.children| then Descendant(n.children[path[0]], path[1..])
    else None
  }

  /** Following `path` from `n` ends at a URL. */
  ghost predicate UrlAt(n: BookmarkNode, path: seq<nat>)
  {
    var d := Descendant(n, path);
    d.Some? && IsUrl(d.value)
  }

  /** `n` is a URL, or one of its children contains one. */
  predicate ContainsUrl(n: BookmarkNode)
  {
    IsUrl(n) || exists i :: 0 <= i < |n.children| && ContainsUrl(n.children[i])
  }

  /** A node contains a URL exactly when the node itself or some descendant of it is a URL. */
  lemma {:induction false} ContainsUrlIffUrlBelow(n: BookmarkNode)
    ensures ContainsUrl(n) <==> exists path :: UrlAt(n, path)
  {
    if ContainsUrl(n) {
      if IsUrl(n) {
        assert UrlAt(n, []);
      } else {
        var i :| 0 <= i < |n.children| && ContainsUrl(n.children[i]);
        ContainsUrlIffUrlBelow(n.children[i]);
        var p :| UrlAt(n.children[i], p);
        assert ([i] + p)[1..] == p;
        assert UrlAt(n, [i] + p);
      }
    }
    if exists path :: UrlAt(n, path) {
      var path :| UrlAt(n, path);
      if path != [] {
        var i := path[0];
        assert UrlAt(n.children[i], path[1..]);
        ContainsUrlIffUrlBelow(n.children[i]);
        assert ContainsUrl(n.children[i]);
      }
    }
  }

  /** Whether `node` is a URL or has a URL somewhere below it, searching the children in order. */
  method NodeHasURLs(node: BookmarkNode) returns (r: bool)
    ensures r <==> ContainsUrl(node)
    decreases node
  {
    if IsUrl(node) {
      return true;
    }
    var i := 0;
    while i < |node.children|
      invariant 0 <= i <= |node.children|
      invariant forall j :: 0 <= j < i ==> !ContainsUrl(node.children[j])
    {
      var childHasUrls := NodeHasURLs(node.children[i]);
      if childHasUrls {
        return true;
      }
      i := i + 1;
    }
    return false;
  }

  /** Some selected node contains a URL. */
  predicate SelectionHasURLs(selection: seq<BookmarkNode>)
  {
    exists i :: 0 <= i < |selection| && ContainsUrl(selection[i])
  }

  /** A selection has URLs exactly when a URL lies at or below one of its nodes. */
  lemma SelectionHasURLsIffUrlBelow(selection: seq<BookmarkNode>)
    ensures SelectionHasURLs(selection) <==> exists i, path :: 0 <= i < |selection| && UrlAt(selection[i], path)
  {
    forall i | 0 <= i < |selection| {
      ContainsUrlIffUrlBelow(selection[i]);
    }
  }

  /** The ids of `nodes`, in order. */
  function Ids(nodes: seq<BookmarkNode>): (ids: seq<nat>)
    ensures |ids| == |nodes|
    ensures forall i :: 0 <= i < |nodes| ==> ids[i] == nodes[i].id
  {
    seq(|nodes|, i requires 0 <= i < |nodes| => nodes[i].id)
  }

  // ---------------------------------------------------------------------
  // Commands, configurations and menu items.

  /** The command and label ids the menu uses. */
  datatype CommandId =
    | OpenAll            // IDS_BOOMARK_BAR_OPEN_ALL
    | OpenAllNewWindow   // IDS_BOOMARK_BAR_OPEN_ALL_NEW_WINDOW
    | OpenAllIncognito   // IDS_BOOMARK_BAR_OPEN_ALL_INCOGNITO
    | OpenInNewTab       // IDS_BOOMARK_BAR_OPEN_IN_NEW_TAB
    | OpenInNewWindow    // IDS_BOOMARK_BAR_OPEN_IN_NEW_WINDOW
    | OpenIncognito      // IDS_BOOMARK_BAR_OPEN_INCOGNITO
    | RenameFolder       // IDS_BOOKMARK_BAR_RENAME_FOLDER
    | Edit               // IDS_BOOKMARK_BAR_EDIT
    | ShowInFolder       // IDS_BOOKMARK_MANAGER_SHOW_IN_FOLDER
    | Cut                // IDS_CUT
    | Copy               // IDS_COPY
    | Paste              // IDS_PASTE
    | Remove             // IDS_BOOKMARK_BAR_REMOVE
    | Sort               // IDS_BOOKMARK_MANAGER_SORT
    | AddNewBookmark     // IDS_BOOMARK_BAR_ADD_NEW_BOOKMARK
    | NewFolder          // IDS_BOOMARK_BAR_NEW_FOLDER
    | BookmarkManager    // IDS_BOOKMARK_MANAGER
    | AlwaysShow         // IDS_BOOMARK_BAR_ALWAYS_SHOW

  /** Where the menu is shown. */
  datatype Configuration =
    | BookmarkBar
    | BookmarkManagerTable
    | BookmarkManagerTableOther
    | BookmarkManagerTree
    | BookmarkManagerOrganizeMenu
    | BookmarkManagerOrganizeMenuOther

  /** The four configurations that offer "show in folder". */
  predicate OffersShowInFolder(configuration: Configuration)
  {
    configuration == BookmarkManagerTable || configuration == BookmarkManagerTableOther
    || configuration == BookmarkManagerOrganizeMenu || configuration == BookmarkManagerOrganizeMenuOther
  }

  /** A menu entry: a command shown with a label, a checkbox, or a separator. */
  datatype MenuItem = Item(id: CommandId, stringId: CommandId) | Checkbox(id: CommandId) | Separator

  /** An item labelled with its own command's string. */
  function Plain(id: CommandId): MenuItem
  {
    Item(id, id)
  }

  predicate IsSingleUrl(selection: seq<BookmarkNode>)
  {
    |selection| == 1 && IsUrl(selection[0])
  }

  predicate IsSingleFolder(selection: seq<BookmarkNode>)
  {
    |selection| == 1 && IsFolder(selection[0])
  }

  /** The three open-all commands; for a single URL they carry the "open in" labels. */
  function OpenAllItems(selection: seq<BookmarkNode>): seq<MenuItem>
  {
    if IsSingleUrl(selection) then
      [Item(OpenAll, OpenInNewTab), Item(OpenAllNewWindow, OpenInNewWindow), Item(OpenAllIncognito, OpenIncognito)]
    else
      [Plain(OpenAll), Plain(OpenAllNewWindow), Plain(OpenAllIncognito)]
  }

  /** The open-all commands and a separator, except in the organize menu. */
  function OpenSection(configuration: Configuration, selection: seq<BookmarkNode>): seq<MenuItem>
  {
    if configuration != BookmarkManagerOrganizeMenu then OpenAllItems(selection) + [Separator] else []
  }

  /** Rename for a single folder, edit otherwise, then "show in folder" where offered. */
  function EditSection(configuration: Configuration, selection: seq<BookmarkNode>): seq<MenuItem>
  {
    [if IsSingleFolder(selection) then Plain(RenameFolder) else Plain(Edit)]
    + (if OffersShowInFolder(configuration) then [Plain(ShowInFolder)] else [])
  }

  const ClipboardSection: seq<MenuItem> := [Separator, Plain(Cut), Plain(Copy), Plain(Paste), Separator, Plain(Remove)]

  function SortSection(configuration: Configuration): seq<MenuItem>
  {
    if configuration == BookmarkManagerOrganizeMenu then [Separator, Plain(Sort)] else []
  }

  const NewSection: seq<MenuItem> := [Separator, Plain(AddNewBookmark), Plain(NewFolder)]

  function BarSection(configuration: Configuration): seq<MenuItem>
  {
    if configuration == BookmarkBar then [Separator, Plain(BookmarkManager), Checkbox(AlwaysShow)] else []
  }

  /** The menu, section by section, for a configuration and a selection. */
  function MenuItems(configuration: Configuration, selection: seq<BookmarkNode>): seq<MenuItem>
  {
    OpenSection(configuration, selection) + EditSection(configuration, selection) + ClipboardSection
    + SortSection(configuration) + NewSection + BarSection(configuration)
  }

  /** Appending six sections one after the other appends their concatenation. */
  lemma AppendSections<T>(start: seq<T>, a: seq<T>, b: seq<T>, c: seq<T>, d: seq<T>, e: seq<T>, f: seq<T>)
    ensures start + a + b + c + d + e + f == start + (a + b + c + d + e + f)
  {
  }

  /** An item is in the menu exactly when it is in one of the sections. */
  lemma InMenu(item: MenuItem, configuration: Configuration, selection: seq<BookmarkNode>)
    ensures item in MenuItems(configuration, selection) <==>
      item in OpenSection(configuration, selection) || item in EditSection(configuration, selection)
      || item in ClipboardSection || item in SortSection(configuration) || item in NewSection
      || item in BarSection(configuration)
  {
  }

  /**
   * Outside the organize menu the menu opens with the three open-all
   * commands and a separator, labelled "open in ..." exactly when the
   * selection is one URL; the organize menu has no open-all command.
   */
  lemma MenuStartsWithOpenAll(configuration: Configuration, selection: seq<BookmarkNode>)
    ensures configuration != BookmarkManagerOrganizeMenu ==>
      var items := MenuItems(configuration, selection);
      |items| >= 4 && items[3] == Separator
      && items[0] == Item(OpenAll, if IsSingleUrl(selection) then OpenInNewTab else OpenAll)
      && items[1] == Item(OpenAllNewWindow, if IsSingleUrl(selection) then OpenInNewWindow else OpenAllNewWindow)
      && items[2] == Item(OpenAllIncognito, if IsSingleUrl(selection) then OpenIncognito else OpenAllIncognito)
    ensures configuration == BookmarkManagerOrganizeMenu ==>
      forall item :: item in MenuItems(configuration, selection) && item.Item? ==>
        item.id != OpenAll && item.id != OpenAllNewWindow && item.id != OpenAllIncognito
  {
  }

  /** The menu offers "rename folder" exactly for a single selected folder, and "edit" otherwise. */
  lemma RenameFolderIffSingleFolder(configuration: Configuration, selection: seq<BookmarkNode>)
    ensures Plain(RenameFolder) in MenuItems(configuration, selection) <==> IsSingleFolder(selection)
    ensures Plain(Edit) in MenuItems(configuration, selection) <==> !IsSingleFolder(selection)
  {
    InMenu(Plain(RenameFolder), configuration, selection);
    InMenu(Plain(Edit), configuration, selection);
  }

  /** "Show in folder" is listed in the four bookmark-manager table and organize-menu configurations. */
  lemma ShowInFolderListedIff(configuration: Configuration, selection: seq<BookmarkNode>)
    ensures Plain(ShowInFolder) in MenuItems(configuration, selection) <==> OffersShowInFolder(configuration)
  {
    InMenu(Plain(ShowInFolder), configuration, selection);
  }

  /** "Sort" is listed only in the organize menu. */
  lemma SortListedIff(configuration: Configuration, selection: seq<BookmarkNode>)
    ensures Plain(Sort) in MenuItems(configuration, selection) <==> configuration == BookmarkManagerOrganizeMenu
  {
    InMenu(Plain(Sort), configuration, selection);
  }

  /** "Bookmark manager" and the always-show checkbox are listed only on the bookmark bar. */
  lemma BookmarkBarItemsListedIff(configuration: Configuration, selection: seq<BookmarkNode>)
    ensures Plain(BookmarkManager) in MenuItems(configuration, selection) <==> configuration == BookmarkBar
    ensures Checkbox(AlwaysShow) in MenuItems(configuration, selection) <==> configuration == BookmarkBar
  {
    InMenu(Plain(BookmarkManager), configuration, selection);
    InMenu(Checkbox(AlwaysShow), configuration, selection);
  }

  /** Cut, copy, paste, remove, add and new folder are always listed. */
  lemma EditingItemsAlwaysListed(configuration: Configuration, selection: seq<BookmarkNode>)
    ensures var items := MenuItems(configuration, selection);
      Plain(Cut) in items && Plain(Copy) in items && Plain(Paste) in items && Plain(Remove) in items
      && Plain(AddNewBookmark) in items && Plain(NewFolder) in items
  {
  }

  // ---------------------------------------------------------------------
  // The collaborators: the menu delegate and the bookmark model.

  /**
   * Copies `nodes` to the clipboard and, when `removeNodes` is set, then has
   * the model remove each of them in turn. The clipboard itself is not
   * modelled.
   */
  method CopyToClipboard(model: BookmarkModel, nodes: seq<BookmarkNode>, removeNodes: bool)
    modifies model
    ensures model.removed == old(model.removed) + (if removeNodes then Ids(nodes) else [])
    ensures model.notified == old(model.notified) + Repeat(model.observers, if removeNodes then |nodes| else 0)
    ensures model.observers == old(model.observers) && model.sorted == old(model.sorted)
  {
    if removeNodes {
      var i := 0;
      while i < |nodes|
        invariant 0 <= i <= |nodes|
        invariant model.removed == old(model.removed) + Ids(nodes[..i])
        invariant model.notified == old(model.notified) + Repeat(model.observers, i)
        invariant model.observers == old(model.observers) && model.sorted == old(model.sorted)
      {
        model.Remove(nodes[i]);
        assert nodes[..i + 1] == nodes[..i] + [nodes[i]];
        i := i + 1;
      }
      assert nodes[..i] == nodes;
    }
  }

  /** `n` copies of `x`. */
  function Repeat<T>(x: T, n: nat): (r: seq<T>)
    ensures |r| == n && forall k :: 0 <= k < n ==> r[k] == x
  {
    if n == 0 then [] else Repeat(x, n - 1) + [x]
  }

  /** A notification the controller sends its delegate. */
  datatype DelegateCall = WillRemoveBookmarks(nodes: seq<BookmarkNode>) | DidRemoveBookmarks | CloseMenu

  /** The delegate that owns the menu; it records the items added and the notifications received. */
  class MenuDelegate {
    var items: seq<MenuItem>
    var calls: seq<DelegateCall>

    constructor ()
      ensures items == [] && calls == []
    {
      items := [];
      calls := [];
    }

    method AddItem(id: CommandId)
      modifies this
      ensures items == old(items) + [Plain(id)] && calls == old(calls)
    {
      items := items + [Plain(id)];
    }

    method AddItemWithStringId(id: CommandId, stringId: CommandId)
      modifies this
      ensures items == old(items) + [Item(id, stringId)] && calls == old(calls)
    {
      items := items + [Item(id, stringId)];
    }

    method AddCheckboxItem(id: CommandId)
      modifies this
      ensures items == old(items) + [Checkbox(id)] && calls == old(calls)
    {
      items := items + [Checkbox(id)];
    }

    method AddSeparator()
      modifies this
      ensures items == old(items) + [Separator] && calls == old(calls)
    {
      items := items + [Separator];
    }

    method Notify(call: DelegateCall)
      modifies this
      ensures calls == old(calls) + [call] && items == old(items)
    {
      calls := calls + [call];
    }
  }

  /**
   * The parts of the bookmark model the controller touches: the root's id,
   * the registered observers, and the removals and sorts requested of it.
   */
  class BookmarkModel {
    const rootId: nat
    var observers: set<object>
    /** Ids of the nodes passed to Remove, in order. */
    var removed: seq<nat>
    /** The folders passed to SortChildren, in order. */
    var sorted: seq<Option<nat>>
    /** For each change the model made, in order, the observers it notified of it. */
    var notified: seq<set<object>>

    constructor (rootId: nat)
      ensures this.rootId == rootId && observers == {} && removed == [] && sorted == [] && notified == []
    {
      this.rootId := rootId;
      observers := {};
      removed := [];
      sorted := [];
      notified := [];
    }

    method AddObserver(o: object)
      modifies this
      ensures observers == old(observers) + {o}
      ensures removed == old(removed) && sorted == old(sorted) && notified == old(notified)
    {
      observers := observers + {o};
    }

    method RemoveObserver(o: object)
      modifies this
      ensures observers == old(observers) - {o}
      ensures removed == old(removed) && sorted == old(sorted) && notified == old(notified)
    {
      observers := observers - {o};
    }

    /**
     * Records a removal and notifies every current observer of it; the tree
     * update itself is not modelled.
     */
    method Remove(node: BookmarkNode)
      modifies this
      ensures removed == old(removed) + [node.id]
      ensures notified == old(notified) + [observers]
      ensures observers == old(observers) && sorted == old(sorted)
    {
      removed := removed + [node.id];
      notified := notified + [observers];
    }

    /**
     * Records a sort request and notifies every current observer of it; the
     * reordering itself is not modelled.
     */
    method SortChildren(folder: Option<nat>)
      modifies this
      ensures sorted == old(sorted) + [folder]
      ensures notified == old(notified) + [observers]
      ensures observers == old(observers) && removed == old(removed)
    {
      sorted := sorted + [folder];
      notified := notified + [observers];
    }
  }

  /** The answers of the bookmark utilities the enabling rules consult. */
  datatype Queries = Queries(
    hasParentForNewNodes: bool,    // GetParentForNewNodes(parent, selection) is non-null
    canPasteIntoFirstSelected: bool, // CanPasteFromClipboard(the first selected node)
    canPasteIntoParent: bool)      // CanPasteFromClipboard(parent)

  /** The selection is exactly one node, a direct child of the root. */
  predicate IsSingleRootChild(selection: seq<BookmarkNode>, rootId: nat)
  {
    |selection| == 1 && selection[0].parent == Some(rootId)
  }

  // ---------------------------------------------------------------------
  // The controller.

  class BookmarkContextMenuController {
    const delegate: MenuDelegate
    const configuration: Configuration
    /** Whether the profile is off the record. */
    const offTheRecord: bool
    /** The folder the menu was opened on, if any. */
    const parent: Option<nat>
    var selection: seq<BookmarkNode>
    /** The model observed; null once the controller has detached from it. */
    var model: BookmarkModel?

    /** Keeps the arguments and registers the controller as an observer of `model`. */
    constructor (delegate: MenuDelegate, model: BookmarkModel, parent: Option<nat>,
                 selection: seq<BookmarkNode>, configuration: Configuration, offTheRecord: bool)
      modifies model
      ensures this.delegate == delegate && this.model == model && this.parent == parent
      ensures this.selection == selection && this.configuration == configuration
      ensures this.offTheRecord == offTheRecord
      ensures model.observers == old(model.observers) + {this}
      ensures model.removed == old(model.removed) && model.sorted == old(model.sorted)
        && model.notified == old(model.notified)
    {
      this.delegate := delegate;
      this.model := model;
      this.parent := parent;
      this.selection := selection;
      this.configuration := configuration;
      this.offTheRecord := offTheRecord;
      new;
      model.AddObserver(this);
    }

    /** Appends the menu's items to the delegate, section by section. */
    method BuildMenu()
      modifies delegate
      ensures delegate.items == old(delegate.items) + MenuItems(configuration, selection)
      ensures delegate.calls == old(delegate.calls)
    {
      ghost var start := delegate.items;
      AddOpenSection();
      AddEditSection();
      AddClipboardSection();
      AddSortSection();
      AddNewSection();
      AddBarSection();
      AppendSections(start, OpenSection(configuration, selection), EditSection(configuration, selection),
        ClipboardSection, SortSection(configuration), NewSection, BarSection(configuration));
    }

    method AddOpenSection()
      modifies delegate
      ensures delegate.items == old(delegate.items) + OpenSection(configuration, selection)
      ensures delegate.calls == old(delegate.calls)
    {
      if configuration != BookmarkManagerOrganizeMenu {
        if |selection| == 1 && IsUrl(selection[0]) {
          delegate.AddItemWithStringId(OpenAll, OpenInNewTab);
          delegate.AddItemWithStringId(OpenAllNewWindow, OpenInNewWindow);
          delegate.AddItemWithStringId(OpenAllIncognito, OpenIncognito);
        } else {
          delegate.AddItem(OpenAll);
          delegate.AddItem(OpenAllNewWindow);
          delegate.AddItem(OpenAllIncognito);
        }
        delegate.AddSeparator();
      }
    }

    method AddEditSection()
      modifies delegate
      ensures delegate.items == old(delegate.items) + EditSection(configuration, selection)
      ensures delegate.calls == old(delegate.calls)
    {
      if |selection| == 1 && IsFolder(selection[0]) {
        delegate.AddItem(RenameFolder);
      } else {
        delegate.AddItem(Edit);
      }
      if configuration == BookmarkManagerTable || configuration == BookmarkManagerTableOther
        || configuration == BookmarkManagerOrganizeMenu || configuration == BookmarkManagerOrganizeMenuOther {
        delegate.AddItem(ShowInFolder);
      }
    }

    method AddClipboardSection()
      modifies delegate
      ensures delegate.items == old(delegate.items) + ClipboardSection
      ensures delegate.calls == old(delegate.calls)
    {
      delegate.AddSeparator();
      delegate.AddItem(Cut);
      delegate.AddItem(Copy);
      delegate.AddItem(Paste);
      delegate.AddSeparator();
      delegate.AddItem(Remove);
    }

    method AddSortSection()
      modifies delegate
      ensures delegate.items == old(delegate.items) + SortSection(configuration)
      ensures delegate.calls == old(delegate.calls)
    {
      if configuration == BookmarkManagerOrganizeMenu {
        delegate.AddSeparator();
        delegate.AddItem(Sort);
      }
    }

    method AddNewSection()
      modifies delegate
      ensures delegate.items == old(delegate.items) + NewSection
      ensures delegate.calls == old(delegate.calls)
    {
      delegate.AddSeparator();
      delegate.AddItem(AddNewBookmark);
      delegate.AddItem(NewFolder);
    }

    method AddBarSection()
      modifies delegate
      ensures delegate.items == old(delegate.items) + BarSection(configuration)
      ensures delegate.calls == old(delegate.calls)
    {
      if configuration == BookmarkBar {
        delegate.AddSeparator();
        delegate.AddItem(BookmarkManager);
        delegate.AddCheckboxItem(AlwaysShow);
      }
    }

    /** Whether some selected node is, or has below it, a URL; the selection is searched in order. */
    method HasURLs() returns (r: bool)
      ensures r <==> SelectionHasURLs(selection)
    {
      var i := 0;
      while i < |selection|
        invariant 0 <= i <= |selection|
        invariant forall j :: 0 <= j < i ==> !ContainsUrl(selection[j])
      {
        var nodeHasUrls := NodeHasURLs(selection[i]);
        if nodeHasUrls {
          return true;
        }
        i := i + 1;
      }
      return false;
    }

    /**
     * Whether command `id` is enabled; an id without a rule of its own is
     * enabled. The commands that act on the selected nodes are never enabled
     * for an empty selection or for a permanent folder (a direct child of the
     * root) selected alone, the incognito commands never off the record, and
     * the open-all commands never for a selection without URLs.
     */
    predicate IsCommandEnabled(id: CommandId, q: Queries)
      reads this, model
      requires model != null
      ensures (|selection| == 0 || IsSingleRootChild(selection, model.rootId))
        && (id == RenameFolder || id == Edit || id == Remove || id == Cut || id == Copy)
        ==> !IsCommandEnabled(id, q)
      ensures offTheRecord && (id == OpenIncognito || id == OpenAllIncognito) ==> !IsCommandEnabled(id, q)
      ensures !SelectionHasURLs(selection) && (id == OpenAll || id == OpenAllNewWindow || id == OpenAllIncognito)
        ==> !IsCommandEnabled(id, q)
    {
      var isRootNode := IsSingleRootChild(selection, model.rootId);
      match id
      case OpenIncognito => !offTheRecord
      case OpenAllIncognito => SelectionHasURLs(selection) && !offTheRecord
      case OpenAll | OpenAllNewWindow => SelectionHasURLs(selection)
      case RenameFolder | Edit => |selection| == 1 && !isRootNode
      case Remove => |selection| != 0 && !isRootNode
      case ShowInFolder =>
        (configuration == BookmarkManagerTableOther || configuration == BookmarkManagerOrganizeMenuOther)
        && |selection| == 1
      case Sort => parent.Some? && parent != Some(model.rootId)
      case NewFolder | AddNewBookmark => q.hasParentForNewNodes
      case Copy | Cut => |selection| > 0 && !isRootNode
      case Paste =>
        (configuration == BookmarkBar && |selection| != 0 && q.canPasteIntoFirstSelected) || q.canPasteIntoParent
      case _ => true
    }

    /** Detaches the controller from the model and hands the model back. */
    method RemoveModelObserver() returns (m: BookmarkModel)
      requires model != null
      modifies this, model
      ensures m == old(model) && model == null
      ensures m.observers == old(m.observers) - {this}
      ensures m.removed == old(m.removed) && m.sorted == old(m.sorted) && m.notified == old(m.notified)
      ensures selection == old(selection)
    {
      m := model;
      m.RemoveObserver(this);
      model := null;
    }

    /** Tells the delegate to close the menu; every model change the controller observes ends here. */
    method ModelChanged()
      modifies delegate
      ensures delegate.calls == old(delegate.calls) + [CloseMenu]
      ensures delegate.items == old(delegate.items)
    {
      delegate.Notify(CloseMenu);
    }

    /**
     * Runs command `id`. The controller first detaches from the model, so
     * that none of the model changes the command makes is reported to it and
     * closes the menu. Remove
     * and Cut bracket their work with the delegate's removal notifications
     * and both have the model remove each selected node in turn; Remove then
     * empties the selection. Copy copies without removing, and Sort asks the
     * model to sort the parent folder.
     */
    method ExecuteCommand(id: CommandId)
      requires model != null
      modifies this, model, delegate
      ensures model == null
      ensures old(model).observers == old(model.observers) - {this}
      ensures old(model).removed == old(model.removed) + (if id == Remove || id == Cut then Ids(old(selection)) else [])
      ensures old(model).sorted == old(model.sorted) + (if id == Sort then [parent] else [])
      ensures old(model).notified == old(model.notified)
        + Repeat(old(model.observers) - {this}, if id == Remove || id == Cut then |old(selection)| else if id == Sort then 1 else 0)
      ensures forall k :: |old(model.notified)| <= k < |old(model).notified| ==> this !in old(model).notified[k]
      ensures selection == (if id == Remove then [] else old(selection))
      ensures delegate.calls == old(delegate.calls)
        + (if id == Remove || id == Cut then [WillRemoveBookmarks(old(selection)), DidRemoveBookmarks] else [])
      ensures delegate.items == old(delegate.items)
    {
      var m := RemoveModelObserver();
      match id {
        case Remove =>
          delegate.Notify(WillRemoveBookmarks(selection));
          var i := 0;
          while i < |selection|
            invariant 0 <= i <= |selection|
            invariant m.removed == old(m.removed) + Ids(selection[..i])
            invariant m.notified == old(m.notified) + Repeat(m.observers, i)
            invariant m.observers == old(m.observers) - {this} && m.sorted == old(m.sorted)
            modifies m
          {
            m.Remove(selection[i]);
            assert selection[..i + 1] == selection[..i] + [selection[i]];
            i := i + 1;
          }
          assert selection[..i] == selection;
          delegate.Notify(DidRemoveBookmarks);
          selection := [];
        case Sort =>
          m.SortChildren(parent);
        case Cut =>
          delegate.Notify(WillRemoveBookmarks(selection));
          CopyToClipboard(m, selection, true);
          delegate.Notify(DidRemoveBookmarks);
        case Copy =>
          CopyToClipboard(m, selection, false);
        case _ =>
      }
    }
  }

  // ---------------------------------------------------------------------
  // The enabling rules.

  /**
   * Open-all in a tab or a window is enabled exactly when a URL lies at or
   * below one of the selected nodes; open-all incognito needs that as well
   * as a normal profile.
   */
  lemma OpenAllEnabledIffUrlBelow(c: BookmarkContextMenuController, q: Queries)
    requires c.model != null
    ensures c.IsCommandEnabled(OpenAll, q) <==> exists i, path :: 0 <= i < |c.selection| && UrlAt(c.selection[i], path)
    ensures c.IsCommandEnabled(OpenAllNewWindow, q) == c.IsCommandEnabled(OpenAll, q)
    ensures c.IsCommandEnabled(OpenAllIncognito, q) <==> c.IsCommandEnabled(OpenAll, q) && !c.offTheRecord
  {
    SelectionHasURLsIffUrlBelow(c.selection);
  }

  /**
   * The menu lists exactly one of rename and edit, and the one it lists is
   * enabled exactly when one node is selected and it is not a direct child
   * of the root.
   */
  lemma ListedEditItemEnabledIff(c: BookmarkContextMenuController, q: Queries)
    requires c.model != null
    ensures var items := MenuItems(c.configuration, c.selection);
      (Plain(RenameFolder) in items) != (Plain(Edit) in items)
    ensures forall item :: item in MenuItems(c.configuration, c.selection) && item.Item?
              && (item.id == RenameFolder || item.id == Edit)
              ==> (c.IsCommandEnabled(item.id, q) <==> |c.selection| == 1 && c.selection[0].parent != Some(c.model.rootId))
  {
    RenameFolderIffSingleFolder(c.configuration, c.selection);
  }

  /** Sort is offered, listed and enabled, exactly in the organize menu opened on a folder other than the root. */
  lemma SortOfferedIff(c: BookmarkContextMenuController, q: Queries)
    requires c.model != null
    ensures Plain(Sort) in MenuItems(c.configuration, c.selection) && c.IsCommandEnabled(Sort, q)
      <==> c.configuration == BookmarkManagerOrganizeMenu && c.parent.Some? && c.parent.value != c.model.rootId
  {
    SortListedIff(c.configuration, c.selection);
  }

  /** On the bookmark bar, "bookmark manager" and the always-show checkbox are listed and enabled whatever the selection. */
  lemma BarItemsOffered(c: BookmarkContextMenuController, q: Queries)
    requires c.model != null && c.configuration == BookmarkBar
    ensures Plain(BookmarkManager) in MenuItems(c.configuration, c.selection) && c.IsCommandEnabled(BookmarkManager, q)
    ensures Checkbox(AlwaysShow) in MenuItems(c.configuration, c.selection) && c.IsCommandEnabled(AlwaysShow, q)
  {
    BookmarkBarItemsListedIff(c.configuration, c.selection);
  }

  /**
   * When the selection is one direct child of the root, every editing
   * command the menu lists (rename or edit, cut, copy, remove) is disabled.
   */
  lemma RootChildMenuEditingDisabled(c: BookmarkContextMenuController, q: Queries)
    requires c.model != null && IsSingleRootChild(c.selection, c.model.rootId)
    ensures forall item :: item in MenuItems(c.configuration, c.selection) && item.Item?
              && (item.id == RenameFolder || item.id == Edit || item.id == Cut || item.id == Copy || item.id == Remove)
              ==> !c.IsCommandEnabled(item.id, q)
  {
  }

  /**
   * "Show in folder" is listed in the plain table and organize-menu
   * configurations but enabled only in their "other" variants, and there
   * only for a single selected node.
   */
  lemma ShowInFolderListedButEnabledOnlyForOther(c: BookmarkContextMenuController, q: Queries)
    requires c.model != null
    ensures c.configuration == BookmarkManagerTable || c.configuration == BookmarkManagerOrganizeMenu ==>
      Plain(ShowInFolder) in MenuItems(c.configuration, c.selection) && !c.IsCommandEnabled(ShowInFolder, q)
    ensures c.IsCommandEnabled(ShowInFolder, q) ==>
      Plain(ShowInFolder) in MenuItems(c.configuration, c.selection) && |c.selection| == 1
  {
    ShowInFolderListedIff(c.configuration, c.selection);
  }
}
