/** The folder browser (frontend/src/components/chat/ChatHierarchy.tsx):
    the cache keys and folder types, the avatar initials, the breadcrumb path
    and the level cache.  What a level request returns is a parameter: the
    folders and chats the server gave.
    Choosing a chat and leaving the browser are recorded as values. */
module ChatHierarchy {
  import opened Wrappers
  import opened Text

  datatype ItemType = Country | Region | City | ChatItem

  datatype HierarchyItem = HierarchyItem(id: string, name: string, typ: ItemType, participantCount: Option<int>)

  /** `cacheKey`: the root for a missing or empty parent, else `p:<id>`. */
  function CacheKey(parentId: Option<string>): (r: string)
    ensures r == "root" <==> parentId.None? || parentId.value == ""
    ensures parentId.Some? && parentId.value != "" ==> r == "p:" + parentId.value
  {
    if parentId.Some? && parentId.value != "" then
      assert ("p:" + parentId.value)[0] != "root"[0];
      "p:" + parentId.value
    else "root"
  }

  /** Distinct parents have distinct cache entries. */
  lemma CacheKeyInjective(a: string, b: string)
    requires a != "" && b != "" && a != b
    ensures CacheKey(Some(a)) != CacheKey(Some(b))
  {
    assert CacheKey(Some(a))[2..] == a;
    assert CacheKey(Some(b))[2..] == b;
  }

  /** `deriveFolderType`: the folders fetched at a depth are countries at the
      top, regions one level down, and cities below that. */
  function DeriveFolderType(depth: int): (r: ItemType)
    ensures r == Country <==> depth <= 0
    ensures r == Region <==> depth == 1
    ensures r == City <==> depth >= 2
  {
    if depth <= 0 then Country else if depth == 1 then Region else City
  }

  /** The end of the word of `t` that runs from `i`: the first whitespace at
      or after `i`, or the end of `t`. */
  function WordEnd(t: string, i: nat): (e: nat)
    requires i <= |t|
    ensures i <= e <= |t|
    ensures forall k :: i <= k < e ==> !IsSpace(t[k])
    ensures e == |t| || IsSpace(t[e])
    decreases |t| - i
  {
    if i == |t| || IsSpace(t[i]) then i else WordEnd(t, i + 1)
  }

  /** The end of the whitespace of `t` that runs from `i`: the first
      non-whitespace at or after `i`, or the end of `t`. */
  function SpacesEnd(t: string, i: nat): (e: nat)
    requires i <= |t|
    ensures i <= e <= |t|
    ensures forall k :: i <= k < e ==> IsSpace(t[k])
    ensures e == |t| || !IsSpace(t[e])
    decreases |t| - i
  {
    if i < |t| && IsSpace(t[i]) then SpacesEnd(t, i + 1) else i
  }

  /** In `t`, the first word ends at `i` and the second starts at `j`. */
  predicate SecondWordStart(t: string, i: int, j: int) {
    0 < i < j < |t| && (forall k :: 0 <= k < i ==> !IsSpace(t[k])) &&
    (forall k :: i <= k < j ==> IsSpace(t[k])) && !IsSpace(t[j])
  }

  /** `initials`: the upper-cased first letters of the first two words, or
      nothing for a blank name.  The trimmed name has a second word exactly
      when it holds whitespace. */
  function Initials(name: string): (r: string)
    ensures |r| <= 2
    ensures r == [] <==> Trim(name) == []
    ensures r != [] ==> r[0] == UpperChar(Trim(name)[0])
    ensures |r| == 2 <==> exists k :: 0 < k < |Trim(name)| && IsSpace(Trim(name)[k])
    ensures |r| == 2 ==> exists i, j :: SecondWordStart(Trim(name), i, j) && r[1] == UpperChar(Trim(name)[j])
  {
    var t := Trim(name);
    if t == [] then []
    else
      var i := WordEnd(t, 1);
      var j := SpacesEnd(t, i);
      assert j < |t| ==> SecondWordStart(t, i, j);
      assert j == |t| ==> forall k :: 0 < k < |t| ==> !IsSpace(t[k]);
      [UpperChar(t[0])] + (if j < |t| then [UpperChar(t[j])] else [])
  }

  /** A one-word name has one initial. */
  lemma OneWordOneInitial(name: string)
    requires name != [] && forall i :: 0 <= i < |name| ==> !IsSpace(name[i])
    ensures Initials(name) == [UpperChar(name[0])]
  {
    TrimNoop(name);
  }

  /** The first item with the given name. */
  function FindByName(items: seq<HierarchyItem>, name: string): (r: Option<HierarchyItem>)
    ensures r.None? <==> forall i :: 0 <= i < |items| ==> items[i].name != name
    ensures r.Some? ==> exists i :: 0 <= i < |items| && items[i] == r.value && r.value.name == name
                                    && forall j :: 0 <= j < i ==> items[j].name != name
  {
    if items == [] then None
    else if items[0].name == name then Some(items[0])
    else
      var rest := FindByName(items[1..], name);
      assert rest.Some? ==> exists i :: 0 <= i < |items| && items[i] == rest.value && rest.value.name == name
                                        && forall j :: 0 <= j < i ==> items[j].name != name by {
        if rest.Some? {
          var k :| 0 <= k < |items[1..]| && items[1..][k] == rest.value && rest.value.name == name
                   && forall j :: 0 <= j < k ==> items[1..][j].name != name;
          assert items[k + 1] == items[1..][k];
          forall j | 0 <= j < k + 1 ensures items[j].name != name {
            if j > 0 { assert items[j] == items[1..][j - 1]; }
          }
        }
      }
      rest
  }

  /** The name of the first path item of a type. */
  function NameOfType(path: seq<HierarchyItem>, t: ItemType): (r: Option<string>)
    ensures r.None? <==> forall i :: 0 <= i < |path| ==> path[i].typ != t
    ensures r.Some? ==> exists i :: 0 <= i < |path| && path[i].typ == t && path[i].name == r.value
                                    && forall j :: 0 <= j < i ==> path[j].typ != t
  {
    if path == [] then None
    else if path[0].typ == t then Some(path[0].name)
    else
      var rest := NameOfType(path[1..], t);
      assert rest.Some? ==> exists i :: 0 <= i < |path| && path[i].typ == t && path[i].name == rest.value
                                        && forall j :: 0 <= j < i ==> path[j].typ != t by {
        if rest.Some? {
          var k :| 0 <= k < |path[1..]| && path[1..][k].typ == t && path[1..][k].name == rest.value
                   && forall j :: 0 <= j < k ==> path[1..][j].typ != t;
          assert path[k + 1] == path[1..][k];
          forall j | 0 <= j < k + 1 ensures path[j].typ != t {
            if j > 0 { assert path[j] == path[1..][j - 1]; }
          }
        }
      }
      rest
  }

  /** What `onSelectChat` receives. */
  datatype ChatChoice = ChatChoice(id: string, country: string, region: Option<string>, city: string,
                                   interest: string, participantCount: int)

  /** The room a chat click selects: the country, region and city along the
      path (empty texts when absent), the chat's name as the interest. */
  function ChoiceFor(path: seq<HierarchyItem>, item: HierarchyItem): (r: ChatChoice)
    ensures r.id == item.id && r.interest == item.name
    ensures r.region == NameOfType(path, Region)
    ensures r.country == NameOfType(path, Country).GetOr("")
    ensures r.city == NameOfType(path, City).GetOr("")
    ensures r.participantCount == item.participantCount.GetOr(0)
  {
    ChatChoice(item.id, NameOfType(path, Country).GetOr(""), NameOfType(path, Region),
               NameOfType(path, City).GetOr(""), item.name, item.participantCount.GetOr(0))
  }

  /** A level request that reached the server. */
  datatype LevelRequest = LevelRequest(parentId: Option<string>, depth: int, withChats: bool)

  /** A folder and a chat as a level request returns them. */
  datatype Folder = Folder(id: string, name: string)

  datatype Chat = Chat(id: string, name: string, participantCount: int)

  /** The answer of a level request. Every fetcher catches its own errors
      and answers an empty list, so a failed request is an empty answer. */
  datatype LevelResponse = LevelResponse(folders: seq<Folder>, chats: seq<Chat>)

  /** The chats of a folder are added only on a city level: three deep, or
      below a city in the path the loading closure sees. */
  predicate CityLevel(parentId: Option<string>, depth: int, seenPath: seq<HierarchyItem>) {
    (depth >= 3 || (|seenPath| > 0 && seenPath[|seenPath| - 1].typ == City)) &&
    parentId.Some? && parentId.value != ""
  }

  /** No chat among the items. */
  predicate FoldersOnly(path: seq<HierarchyItem>) {
    forall i :: 0 <= i < |path| ==> path[i].typ != ChatItem
  }

  /** Folders fetched at a depth, typed by that depth. */
  function FolderItems(folders: seq<Folder>, depth: int): (r: seq<HierarchyItem>)
    ensures |r| == |folders|
    ensures forall i :: 0 <= i < |r| ==>
      r[i] == HierarchyItem(folders[i].id, folders[i].name, DeriveFolderType(depth), None)
  {
    seq(|folders|, i requires 0 <= i < |folders| => HierarchyItem(folders[i].id, folders[i].name, DeriveFolderType(depth), None))
  }

  function ChatItems(chats: seq<Chat>): (r: seq<HierarchyItem>)
    ensures |r| == |chats|
    ensures forall i :: 0 <= i < |r| ==>
      r[i] == HierarchyItem(chats[i].id, chats[i].name, ChatItem, Some(chats[i].participantCount))
  {
    seq(|chats|, i requires 0 <= i < |chats| => HierarchyItem(chats[i].id, chats[i].name, ChatItem, Some(chats[i].participantCount)))
  }

  /** The level a load installs: the folders, typed by depth, then the chats
      on a city level; without chats a level holds no chat. */
  function LevelItems(response: LevelResponse, depth: int, withChats: bool): (r: seq<HierarchyItem>)
    ensures |r| == |response.folders| + (if withChats then |response.chats| else 0)
    ensures r[..|response.folders|] == FolderItems(response.folders, depth)
    ensures withChats ==> r[|response.folders|..] == ChatItems(response.chats)
    ensures !withChats ==> FoldersOnly(r)
  {
    if withChats then FolderItems(response.folders, depth) + ChatItems(response.chats)
    else FolderItems(response.folders, depth)
  }

  class Navigator {
    const selectedCountry: string
    var path: seq<HierarchyItem>
    var level: seq<HierarchyItem>
    var cache: map<string, seq<HierarchyItem>>
    var requests: seq<LevelRequest>
    var chosen: seq<ChatChoice>
    /** the number of `onBack` calls */
    var exits: nat

    /** Only folders are pushed on the path, and the top level holds only
        folders. */
    ghost predicate Valid()
      reads this
    {
      FoldersOnly(path) && ("root" in cache ==> FoldersOnly(cache["root"]))
    }

    constructor (selectedCountry: string)
      ensures Valid() && this.selectedCountry == selectedCountry
      ensures path == [] && level == [] && cache == map[] && requests == [] && chosen == [] && exits == 0
    {
      this.selectedCountry := selectedCountry;
      path := [];
      level := [];
      cache := map[];
      requests := [];
      chosen := [];
      exits := 0;
    }

    /** `loadLevel`: a cached level is served without a request; otherwise
        the request's folders (and chats, on a city level) are cached and
        shown. A failed request is cached as an empty level too. */
    method LoadLevel(parentId: Option<string>, depth: int, useCache: bool, seenPath: seq<HierarchyItem>,
                     response: LevelResponse)
      requires Valid()
      modifies this
      ensures Valid()
      ensures path == old(path) && chosen == old(chosen) && exits == old(exits)
      ensures var key := CacheKey(parentId);
        if useCache && key in old(cache) then
          level == old(cache)[key] && cache == old(cache) && requests == old(requests)
        else
          requests == old(requests) + [LevelRequest(parentId, depth, CityLevel(parentId, depth, seenPath))] &&
          level == LevelItems(response, depth, CityLevel(parentId, depth, seenPath)) &&
          cache == old(cache)[key := level]
    {
      var key := CacheKey(parentId);
      if useCache && key in cache {
        level := cache[key];
        return;
      }
      var withChats := CityLevel(parentId, depth, seenPath);
      requests := requests + [LevelRequest(parentId, depth, withChats)];
      var items := LevelItems(response, depth, withChats);
      cache := cache[key := items];
      level := items;
    }

    /** The start-up load: with a selected country, the top level is
        fetched afresh and, when that country is among it, the path starts at
        the country and its level is fetched afresh; otherwise the top level
        is shown, from the cache when the first fetch filled it. */
    method Start(first: LevelResponse, second: LevelResponse)
      requires Valid() && path == []
      modifies this
      ensures Valid() && chosen == old(chosen) && exits == old(exits)
      ensures selectedCountry == "" ==> path == [] && |requests| <= |old(requests)| + 1
      ensures selectedCountry != "" ==>
        var found := FindByName(LevelItems(first, 0, false), selectedCountry);
        (found.Some? ==> path == [found.value] && found.value.typ == Country) &&
        (found.None? ==> path == [] && level == FolderItems(first.folders, 0) && |requests| == |old(requests)| + 1)
      ensures selectedCountry != "" ==>
        var found := FindByName(LevelItems(first, 0, false), selectedCountry);
        (found.None? ==> requests == old(requests) + [LevelRequest(None, 0, false)]) &&
        (found.Some? ==>
           var withChats := CityLevel(Some(found.value.id), 1, []);
           requests == old(requests) + [LevelRequest(None, 0, false), LevelRequest(Some(found.value.id), 1, withChats)] &&
           level == LevelItems(second, 1, withChats))
      ensures selectedCountry == "" && "root" in old(cache) ==> level == old(cache)["root"] && requests == old(requests)
      ensures selectedCountry == "" && "root" !in old(cache) ==>
        level == FolderItems(first.folders, 0) && requests == old(requests) + [LevelRequest(None, 0, false)]
    {
      if selectedCountry != "" {
        LoadLevel(None, 0, false, path, first);
        var countries := if "root" in cache then cache["root"] else [];
        var found := FindByName(countries, selectedCountry);
        if found.Some? {
          var seen := path;
          path := [found.value];
          LoadLevel(Some(found.value.id), 1, false, seen, second);
        } else {
          LoadLevel(None, 0, true, path, second);
        }
      } else {
        LoadLevel(None, 0, true, path, first);
      }
    }

    /** `handleItemClick`: a chat is selected with the place the path
        describes and the path stays; a folder is pushed on the path and its
        level loaded, by a closure that still sees the path before the push. */
    method ItemClick(item: HierarchyItem, response: LevelResponse)
      requires Valid()
      modifies this
      ensures Valid() && exits == old(exits)
      ensures item.typ == ChatItem ==>
        path == old(path) && chosen == old(chosen) + [ChoiceFor(old(path), item)] &&
        level == old(level) && cache == old(cache) && requests == old(requests)
      ensures item.typ != ChatItem ==> path == old(path) + [item] && chosen == old(chosen)
      ensures item.typ != ChatItem && CacheKey(Some(item.id)) in old(cache) ==>
        level == old(cache)[CacheKey(Some(item.id))] && requests == old(requests)
      ensures item.typ != ChatItem && CacheKey(Some(item.id)) !in old(cache) ==>
        var depth := |old(path)| + 1;
        var withChats := CityLevel(Some(item.id), depth, old(path));
        requests == old(requests) + [LevelRequest(Some(item.id), depth, withChats)] &&
        level == LevelItems(response, depth, withChats) && cache == old(cache)[CacheKey(Some(item.id)) := level]
      ensures forall k :: k in old(cache) && k != CacheKey(Some(item.id)) ==> k in cache && cache[k] == old(cache)[k]
    {
      if item.typ == ChatItem {
        chosen := chosen + [ChoiceFor(path, item)];
        return;
      }
      var seen := path;
      path := path + [item];
      LoadLevel(Some(item.id), |path|, true, seen, response);
    }

    /** `handleBackClick`: leaving from the top, or from the selected
        country, calls `onBack`; otherwise the last crumb is dropped and the
        level above shown. */
    method BackClick(response: LevelResponse)
      requires Valid()
      modifies this
      ensures Valid() && chosen == old(chosen)
      ensures |old(path)| == 0 || (|old(path)| == 1 && selectedCountry != "") ==>
        exits == old(exits) + 1 && path == old(path) && level == old(level) && requests == old(requests)
      ensures !(|old(path)| == 0 || (|old(path)| == 1 && selectedCountry != "")) ==>
        exits == old(exits) && path == old(path)[..|old(path)| - 1]
      ensures |old(path)| == 1 && selectedCountry == "" && CacheKey(None) in old(cache) ==>
        level == old(cache)["root"] && requests == old(requests)
      ensures |old(path)| >= 2 && CacheKey(Some(old(path)[|old(path)| - 2].id)) in old(cache) ==>
        level == old(cache)[CacheKey(Some(old(path)[|old(path)| - 2].id))] && requests == old(requests)
      ensures |old(path)| == 1 && selectedCountry == "" && CacheKey(None) !in old(cache) ==>
        var withChats := CityLevel(None, 0, old(path));
        requests == old(requests) + [LevelRequest(None, 0, withChats)] && level == LevelItems(response, 0, withChats)
      ensures |old(path)| >= 2 && CacheKey(Some(old(path)[|old(path)| - 2].id)) !in old(cache) ==>
        var parent := Some(old(path)[|old(path)| - 2].id);
        var withChats := CityLevel(parent, |old(path)| - 1, old(path));
        requests == old(requests) + [LevelRequest(parent, |old(path)| - 1, withChats)] &&
        level == LevelItems(response, |old(path)| - 1, withChats)
    {
      if |path| == 0 || (|path| == 1 && selectedCountry != "") {
        exits := exits + 1;
        return;
      }
      var seen := path;
      path := path[..|path| - 1];
      if |path| == 0 {
        LoadLevel(None, 0, true, seen, response);
      } else {
        LoadLevel(Some(path[|path| - 1].id), |path|, true, seen, response);
      }
    }

    /** `handleCrumbClick`: the last crumb does nothing; an earlier one cuts
        the path after it and shows its level. */
    method CrumbClick(index: nat, response: LevelResponse)
      requires Valid() && index < |path|
      modifies this
      ensures Valid() && chosen == old(chosen) && exits == old(exits)
      ensures index == |old(path)| - 1 ==> path == old(path) && level == old(level) && requests == old(requests)
      ensures index < |old(path)| - 1 ==> path == old(path)[..index + 1]
      ensures index < |old(path)| - 1 && CacheKey(Some(old(path)[index].id)) in old(cache) ==>
        level == old(cache)[CacheKey(Some(old(path)[index].id))] && requests == old(requests)
      ensures index < |old(path)| - 1 && CacheKey(Some(old(path)[index].id)) !in old(cache) ==>
        var parent := Some(old(path)[index].id);
        var withChats := CityLevel(parent, index + 1, old(path));
        requests == old(requests) + [LevelRequest(parent, index + 1, withChats)] &&
        level == LevelItems(response, index + 1, withChats)
    {
      if index == |path| - 1 {
        return;
      }
      var seen := path;
      path := path[..index + 1];
      LoadLevel(Some(path[index].id), |path|, true, seen, response);
    }
  }

  /** Inbound navigation: clicking a folder and then the back arrow returns
      to the same path and, since both levels are cached by then, to the same
      level without a request. */
  method ClickThenBack(nav: Navigator, folder: HierarchyItem, r1: LevelResponse, r2: LevelResponse)
    requires nav.Valid() && folder.typ != ChatItem && |nav.path| >= 1
    requires CacheKey(Some(nav.path[|nav.path| - 1].id)) in nav.cache
    requires CacheKey(Some(folder.id)) != CacheKey(Some(nav.path[|nav.path| - 1].id))
    modifies nav
    ensures nav.Valid() && nav.path == old(nav.path)
    ensures nav.level == old(nav.cache)[CacheKey(Some(old(nav.path)[|old(nav.path)| - 1].id))]
  {
    nav.ItemClick(folder, r1);
    nav.BackClick(r2);
  }

  /** A level whose request failed is cached as empty: a later load of it
      that may use the cache shows it empty without asking again. */
  method FailedLevelStaysEmpty(nav: Navigator, parentId: Option<string>, depth: int,
                               seenPath: seq<HierarchyItem>, later: LevelResponse)
    requires nav.Valid()
    modifies nav
    ensures nav.Valid() && nav.level == []
    ensures nav.requests == old(nav.requests) + [LevelRequest(parentId, depth, CityLevel(parentId, depth, seenPath))]
  {
    nav.LoadLevel(parentId, depth, false, seenPath, LevelResponse([], []));
    ghost var afterFirst := nav.requests;
    nav.LoadLevel(parentId, depth, true, seenPath, later);
    assert nav.requests == afterFirst;
  }
}
