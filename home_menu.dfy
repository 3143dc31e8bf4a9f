/**
 * The session side menu (`HomeMenu`): the server's session list turned into
 * menu items behind a fixed "new conversation" item, the collapsed view that
 * keeps only that item, and the panel state that clicks, deletions, the
 * collapse toggle and session changes update.
 */
module Menu {
  import opened Wrappers

  /** Key and label of the item that starts a new conversation. */
  const NewKey: string := "new"
  const NewLabel: string := "开启新对话"

  /** One session as the menu API lists it. */
  datatype MenuInfo = MenuInfo(sessionId: string, title: string)

  /** One menu item: its key and its label text (the icon is not modelled). */
  datatype MenuItem = MenuItem(key: string, text: string)

  /** One rendered item: key, label text, and whether a delete icon is attached. */
  datatype MenuEntry = MenuEntry(key: string, text: string, deletable: bool)

  const NewChatItem: MenuItem := MenuItem(NewKey, NewLabel)

  /** The item for one session: keyed by its id, labelled by its title. */
  function InfoItem(info: MenuInfo): MenuItem
  {
    MenuItem(info.sessionId, info.title)
  }

  /** The session behind an item: the inverse of `InfoItem`. */
  function ItemInfo(item: MenuItem): (info: MenuInfo)
    ensures InfoItem(info) == item
  {
    MenuInfo(item.key, item.text)
  }

  /** The sessions behind a list of items. */
  function ItemInfos(items: seq<MenuItem>): (infos: seq<MenuInfo>)
    ensures |infos| == |items|
    ensures forall k :: 0 <= k < |items| ==> InfoItem(infos[k]) == items[k]
  {
    seq(|items|, k requires 0 <= k < |items| => ItemInfo(items[k]))
  }

  /**
   * The menu `convertMenuItems` builds: the "new conversation" item, then
   * one item per listed session in the listed order; `None` stands for a
   * falsy list, which yields the "new conversation" item alone.
   */
  function ConvertedMenu(infos: Option<seq<MenuInfo>>): (r: seq<MenuItem>)
    ensures r != [] && r[0] == NewChatItem
    ensures infos.None? ==> r == [NewChatItem]
    ensures infos.Some? ==> |r| == |infos.value| + 1
    ensures infos.Some? ==> forall k :: 0 <= k < |infos.value| ==>
      r[k + 1].key == infos.value[k].sessionId && r[k + 1].text == infos.value[k].title
  {
    var listed := if infos.Some? then seq(|infos.value|, k requires 0 <= k < |infos.value| => InfoItem(infos.value[k])) else [];
    [NewChatItem] + listed
  }

  /** How many items carry the given key: none exactly when no item carries it. */
  function KeyCount(items: seq<MenuItem>, key: string): (n: nat)
    ensures n <= |items|
    ensures n == 0 <==> forall k :: 0 <= k < |items| ==> items[k].key != key
  {
    if items == [] then 0
    else (if items[0].key == key then 1 else 0) + KeyCount(items[1..], key)
  }

  /** The items keyed "new", in their order: the collapsed filter. */
  function OnlyNew(items: seq<MenuItem>): (r: seq<MenuItem>)
    ensures |r| <= |items|
    ensures forall k :: 0 <= k < |r| ==> r[k].key == NewKey
    ensures forall k :: 0 <= k < |items| && items[k].key == NewKey ==> items[k] in r
  {
    if items == [] then []
    else (if items[0].key == NewKey then [items[0]] else []) + OnlyNew(items[1..])
  }

  /** The items shown: only those keyed "new" when collapsed, all of them otherwise. */
  function Shown(items: seq<MenuItem>, collapsed: bool): seq<MenuItem>
  {
    if collapsed then OnlyNew(items) else items
  }

  /**
   * `processedItems`: the shown items in order, each keeping its key and
   * label; every item except the one keyed "new" carries a delete icon.
   */
  function ProcessedItems(items: seq<MenuItem>, collapsed: bool): (r: seq<MenuEntry>)
    ensures !collapsed ==> |r| == |items|
    ensures !collapsed ==> forall k :: 0 <= k < |items| ==>
      r[k].key == items[k].key && r[k].text == items[k].text
    ensures |r| == |Shown(items, collapsed)| && forall k :: 0 <= k < |r| ==>
      r[k].key == Shown(items, collapsed)[k].key && r[k].text == Shown(items, collapsed)[k].text
    ensures collapsed ==> |r| == KeyCount(items, NewKey)
    ensures forall k :: 0 <= k < |r| ==> (r[k].deletable <==> r[k].key != NewKey)
    ensures collapsed ==> forall k :: 0 <= k < |r| ==> r[k].key == NewKey && !r[k].deletable
  {
    var shown := Shown(items, collapsed);
    CollapsedCount(items);
    seq(|shown|, k requires 0 <= k < |shown| => MenuEntry(shown[k].key, shown[k].text, shown[k].key != NewKey))
  }

  /** The collapsed filter keeps exactly as many items as carry the key "new". */
  lemma {:induction false} CollapsedCount(items: seq<MenuItem>)
    ensures |OnlyNew(items)| == KeyCount(items, NewKey)
  {
    if items != [] {
      CollapsedCount(items[1..]);
    }
  }

  /** The collapsed filter distributes over concatenation. */
  lemma {:induction false} OnlyNewAppend(a: seq<MenuItem>, b: seq<MenuItem>)
    ensures OnlyNew(a + b) == OnlyNew(a) + OnlyNew(b)
  {
    if a != [] {
      assert (a + b)[0] == a[0] && (a + b)[1..] == a[1..] + b;
      OnlyNewAppend(a[1..], b);
    } else {
      assert a + b == b;
    }
  }

  /** Items none of which is keyed "new" vanish when collapsed. */
  lemma {:induction false} OnlyNewOfOthers(items: seq<MenuItem>)
    requires forall k :: 0 <= k < |items| ==> items[k].key != NewKey
    ensures OnlyNew(items) == []
  {
    if items != [] {
      OnlyNewOfOthers(items[1..]);
    }
  }

  /** The listed sessions can be read back from the converted menu, in order. */
  lemma ConvertedMenuRoundTrip(infos: seq<MenuInfo>)
    ensures ItemInfos(ConvertedMenu(Some(infos))[1..]) == infos
  {
    var r := ConvertedMenu(Some(infos));
    assert forall k :: 0 <= k < |infos| ==> r[1..][k] == r[k + 1];
  }

  /**
   * A session id is a key of the converted menu exactly when it is "new"
   * or one of the listed sessions' ids.
   */
  lemma ConvertedMenuKeys(infos: Option<seq<MenuInfo>>, key: string)
    ensures KeyCount(ConvertedMenu(infos), key) > 0 <==>
      key == NewKey || (infos.Some? && exists k :: 0 <= k < |infos.value| && infos.value[k].sessionId == key)
  {
    var r := ConvertedMenu(infos);
    if infos.Some? {
      if exists k :: 0 <= k < |infos.value| && infos.value[k].sessionId == key {
        var k :| 0 <= k < |infos.value| && infos.value[k].sessionId == key;
        assert r[k + 1].key == key;
      }
    }
  }

  /**
   * When no listed session uses the key "new", the collapsed menu is the
   * "new conversation" item alone, without a delete icon.
   */
  lemma CollapsedMenuIsNewChatOnly(infos: seq<MenuInfo>)
    requires forall k :: 0 <= k < |infos| ==> infos[k].sessionId != NewKey
    ensures ProcessedItems(ConvertedMenu(Some(infos)), true) == [MenuEntry(NewKey, NewLabel, false)]
  {
    var r := ConvertedMenu(Some(infos));
    assert r == [NewChatItem] + r[1..];
    OnlyNewAppend([NewChatItem], r[1..]);
    OnlyNewOfOthers(r[1..]);
    assert OnlyNew([NewChatItem]) == [NewChatItem] + OnlyNew([]);
  }

  /**
   * The panel state: the selected keys, the menu items, the collapse flag,
   * and what it reports or requests outward (`onTitleSelect` and
   * `onCollapsedChange` calls, list and delete requests).
   */
  class HomeMenu {
    var selectKey: seq<string>
    var menuItems: seq<MenuItem>
    var collapsed: bool
    var titleSelects: seq<string>
    var collapseReports: seq<bool>
    var listRequests: nat
    var deleteRequests: seq<string>

    /** Once the menu is filled, its first item is the "new conversation" item. */
    ghost predicate Valid()
      reads this
    {
      menuItems == [] || menuItems[0] == NewChatItem
    }

    /** Mounting: nothing selected, no items, expanded, nothing reported. */
    constructor ()
      ensures Valid()
      ensures selectKey == [] && menuItems == [] && !collapsed
      ensures titleSelects == [] && collapseReports == [] && listRequests == 0 && deleteRequests == []
    {
      selectKey, menuItems, collapsed := [], [], false;
      titleSelects, collapseReports, listRequests, deleteRequests := [], [], 0, [];
    }

    /** `convertMenuItems`: maps the listed sessions, puts the "new" item in front and stores the menu. */
    method ConvertMenuItems(infos: Option<seq<MenuInfo>>)
      modifies this`menuItems
      ensures Valid()
      ensures menuItems == ConvertedMenu(infos)
    {
      var newMenu: seq<MenuItem> := [];
      if infos.Some? {
        newMenu := seq(|infos.value|, k requires 0 <= k < |infos.value| => InfoItem(infos.value[k]));
      }
      newMenu := [NewChatItem] + newMenu;
      menuItems := newMenu;
    }

    /**
     * `menuRequest`: lists the sessions and converts the answer; `None`
     * stands for a rejected request, which leaves the menu as it was.
     */
    method MenuRequest(response: Option<seq<MenuInfo>>)
      requires Valid()
      modifies this`menuItems, this`listRequests
      ensures Valid()
      ensures listRequests == old(listRequests) + 1
      ensures menuItems == (if response.Some? then ConvertedMenu(response) else old(menuItems))
    {
      listRequests := listRequests + 1;
      if response.Some? {
        ConvertMenuItems(response);
      }
    }

    /**
     * The effect on a new `sessionId`: a key already in the menu is selected
     * at once; otherwise the menu is refetched (answer `response`) and, when
     * that succeeds, rebuilt before the key is selected.
     */
    method SyncSelection(sessionId: string, response: Option<seq<MenuInfo>>) returns (refetched: bool)
      requires Valid()
      modifies this`menuItems, this`listRequests, this`selectKey
      ensures Valid()
      ensures refetched <==> forall k :: 0 <= k < |old(menuItems)| ==> old(menuItems)[k].key != sessionId
      ensures !refetched ==> selectKey == [sessionId] && menuItems == old(menuItems) && listRequests == old(listRequests)
      ensures refetched ==> listRequests == old(listRequests) + 1
      ensures refetched && response.Some? ==> menuItems == ConvertedMenu(response) && selectKey == [sessionId]
      ensures refetched && response.None? ==> menuItems == old(menuItems) && selectKey == old(selectKey)
    {
      refetched := KeyCount(menuItems, sessionId) == 0;
      if refetched {
        listRequests := listRequests + 1;
        if response.Some? {
          ConvertMenuItems(response);
          selectKey := [sessionId];
        }
      } else {
        selectKey := [sessionId];
      }
    }

    /** `onClick`: reports the key upward and selects exactly it. */
    method OnClick(key: string)
      modifies this`titleSelects, this`selectKey
      ensures titleSelects == old(titleSelects) + [key]
      ensures selectKey == [key]
    {
      titleSelects := titleSelects + [key];
      selectKey := [key];
    }

    /**
     * `handleDelete`: once the user confirms, the session is deleted; when
     * the request succeeds (`response` is the remaining list) the menu is
     * rebuilt from it and the "new conversation" item is clicked.
     */
    method HandleDelete(key: string, confirmed: bool, response: Option<seq<MenuInfo>>)
      requires Valid()
      modifies this`deleteRequests, this`menuItems, this`titleSelects, this`selectKey
      ensures Valid()
      ensures deleteRequests == old(deleteRequests) + (if confirmed then [key] else [])
      ensures confirmed && response.Some? ==>
        menuItems == ConvertedMenu(response) && selectKey == [NewKey] && titleSelects == old(titleSelects) + [NewKey]
      ensures !(confirmed && response.Some?) ==>
        menuItems == old(menuItems) && selectKey == old(selectKey) && titleSelects == old(titleSelects)
    {
      if confirmed {
        deleteRequests := deleteRequests + [key];
        if response.Some? {
          ConvertMenuItems(response);
          OnClick(NewKey);
        }
      }
    }

    /** `toggleCollapsed`: flips the flag and reports the new value. */
    method ToggleCollapsed()
      modifies this`collapsed, this`collapseReports
      ensures collapsed == !old(collapsed)
      ensures collapseReports == old(collapseReports) + [collapsed]
    {
      collapsed := !collapsed;
      collapseReports := collapseReports + [collapsed];
    }
  }
}
