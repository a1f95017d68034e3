/** app/src/menu_model.c: the menu bar as one flat list, and the builder of app/src/main.cc that turns the
    list back into menus. */
module MenuModel {
  import opened Prelude
  import opened Json

  /** `quaero_menu_entry`. */
  datatype Entry =
    | Top(caption: string)
    | Item(id: string, caption: string, accel: Option<string>, enabled: bool)
    | Separator

  /** A menu with its contents, as the UI sends it. */
  datatype Menu = Menu(caption: string, items: seq<Entry>)

  // ---------------------------------------------------------------- what is accepted

  function AsItem(j: Json): (r: Option<Entry>)
    ensures r.Some? ==> !r.value.Top?
  {
    if !j.Object? then None
    else if Get(j, "separator") == Some(Bool(true)) then Some(Separator)
    else
      var id, caption, accel := GetString(j, "id"), GetString(j, "label"), GetString(j, "accel");
      if id.None? || id.value == "" || caption.None? then None
      else
        Some(Item(id.value, caption.value, if accel == Some("") then None else accel,
                  Get(j, "enabled") != Some(Bool(false))))
  }

  predicate ItemsOnly(es: seq<Entry>) {
    forall k | 0 <= k < |es| :: !es[k].Top?
  }

  function AsItems(js: seq<Json>): (r: Option<seq<Entry>>)
    ensures r.Some? ==> ItemsOnly(r.value) && |r.value| == |js|
  {
    if js == [] then Some([])
    else
      var rest := AsItems(js[..|js| - 1]);
      var last := AsItem(js[|js| - 1]);
      if rest.Some? && last.Some? then Some(rest.value + [last.value]) else None
  }

  function AsMenu(j: Json): (r: Option<Menu>)
    ensures r.Some? ==> ItemsOnly(r.value.items)
  {
    var caption, items := GetString(j, "label"), Get(j, "items");
    if !j.Object? || caption.None? || items.None? || !items.value.Array? then None
    else
      var es := AsItems(items.value.items);
      if es.Some? then Some(Menu(caption.value, es.value)) else None
  }

  function AsMenus(js: seq<Json>): (r: Option<seq<Menu>>)
    ensures r.Some? ==> forall m <- r.value :: ItemsOnly(m.items)
  {
    if js == [] then Some([])
    else
      var rest := AsMenus(js[..|js| - 1]);
      var last := AsMenu(js[|js| - 1]);
      if rest.Some? && last.Some? then Some(rest.value + [last.value]) else None
  }

  /** The menus a text stands for: a list of them, or null for none; None in is text that is not JSON. */
  function Accepted(root: Option<Json>): (r: Option<seq<Menu>>)
    ensures r.Some? ==> forall m <- r.value :: ItemsOnly(m.items)
  {
    match root
    case Some(Array(js)) => AsMenus(js)
    case Some(Null) => Some([])
    case _ => None
  }

  // ---------------------------------------------------------------- what the UI sends

  /** An entry that a menu can hold: an item has an id, and no accelerator rather than an empty one. */
  predicate Sendable(e: Entry) {
    !e.Top? && (e.Item? ==> e.id != "" && e.accel != Some(""))
  }

  predicate SendableItems(es: seq<Entry>) {
    es == [] || (SendableItems(es[..|es| - 1]) && Sendable(es[|es| - 1]))
  }

  predicate SendableMenus(menus: seq<Menu>) {
    menus == [] || (SendableMenus(menus[..|menus| - 1]) && SendableItems(menus[|menus| - 1].items))
  }

  /** The JSON of an entry. */
  function ItemJson(e: Entry): Json {
    match e
    case Top(_) => Null
    case Separator => Object([Member("separator", Bool(true))])
    case Item(id, caption, accel, enabled) =>
      Object([Member("id", Str(id)), Member("label", Str(caption))]
             + (if accel.Some? then [Member("accel", Str(accel.value))] else [])
             + [Member("enabled", Bool(enabled))])
  }

  function ItemsJson(es: seq<Entry>): (r: seq<Json>)
    ensures |r| == |es|
  {
    if es == [] then [] else ItemsJson(es[..|es| - 1]) + [ItemJson(es[|es| - 1])]
  }

  function MenuJson(m: Menu): Json {
    Object([Member("label", Str(m.caption)), Member("items", Array(ItemsJson(m.items)))])
  }

  function MenusJson(menus: seq<Menu>): (r: seq<Json>)
    ensures |r| == |menus|
  {
    if menus == [] then [] else MenusJson(menus[..|menus| - 1]) + [MenuJson(menus[|menus| - 1])]
  }

  lemma LookupFirst(m: Member, rest: seq<Member>, key: string)
    ensures Lookup([m] + rest, key) == if m.key == key then Some(m.value) else Lookup(rest, key)
  {
    assert ([m] + rest)[1..] == rest;
  }

  lemma ItemMembers(e: Entry, key: string)
    requires e.Item?
    ensures Get(ItemJson(e), key) ==
            if key == "id" then Some(Str(e.id))
            else if key == "label" then Some(Str(e.caption))
            else if key == "accel" && e.accel.Some? then Some(Str(e.accel.value))
            else if key == "enabled" then Some(Bool(e.enabled))
            else None
  {
    var id, caption := Member("id", Str(e.id)), Member("label", Str(e.caption));
    var enabled := Member("enabled", Bool(e.enabled));
    var last := [enabled];
    LookupFirst(enabled, [], key);
    var behind := if e.accel.Some? then [Member("accel", Str(e.accel.value))] + last else last;
    if e.accel.Some? {
      LookupFirst(Member("accel", Str(e.accel.value)), last, key);
    }
    LookupFirst(caption, behind, key);
    LookupFirst(id, [caption] + behind, key);
    assert ItemJson(e).members == [id] + ([caption] + behind);
  }

  lemma ItemIsAccepted(e: Entry)
    requires Sendable(e)
    ensures AsItem(ItemJson(e)) == Some(e)
  {
    if e.Separator? {
      LookupFirst(Member("separator", Bool(true)), [], "separator");
    } else {
      ItemMembers(e, "separator");
      ItemMembers(e, "id");
      ItemMembers(e, "label");
      ItemMembers(e, "accel");
      ItemMembers(e, "enabled");
    }
  }

  lemma AsItemsAppend(js: seq<Json>, j: Json)
    requires AsItems(js).Some? && AsItem(j).Some?
    ensures AsItems(js + [j]) == Some(AsItems(js).value + [AsItem(j).value])
  {
    assert (js + [j])[..|js|] == js;
  }

  lemma AsMenusAppend(js: seq<Json>, j: Json)
    requires AsMenus(js).Some? && AsMenu(j).Some?
    ensures AsMenus(js + [j]) == Some(AsMenus(js).value + [AsMenu(j).value])
  {
    assert (js + [j])[..|js|] == js;
  }

  lemma {:induction false} ItemsAreAccepted(es: seq<Entry>)
    requires SendableItems(es)
    ensures AsItems(ItemsJson(es)) == Some(es)
  {
    if es != [] {
      var front, last := es[..|es| - 1], es[|es| - 1];
      ItemsAreAccepted(front);
      ItemIsAccepted(last);
      AsItemsAppend(ItemsJson(front), ItemJson(last));
      assert front + [last] == es;
    }
  }

  lemma MenuIsAccepted(m: Menu)
    requires SendableItems(m.items)
    ensures AsMenu(MenuJson(m)) == Some(m)
  {
    ItemsAreAccepted(m.items);
    var caption, items := Member("label", Str(m.caption)), Member("items", Array(ItemsJson(m.items)));
    LookupFirst(items, [], "label");
    LookupFirst(items, [], "items");
    LookupFirst(caption, [items], "label");
    LookupFirst(caption, [items], "items");
    assert [caption] + [items] == [caption, items];
  }

  lemma MenusJsonAppend(front: seq<Menu>, last: Menu)
    ensures MenusJson(front + [last]) == MenusJson(front) + [MenuJson(last)]
  {
    assert (front + [last])[..|front|] == front;
  }

  lemma OneMoreSent(front: seq<Menu>, last: Menu)
    requires AsMenus(MenusJson(front)) == Some(front) && SendableItems(last.items)
    ensures AsMenus(MenusJson(front + [last])) == Some(front + [last])
  {
    MenuIsAccepted(last);
    AsMenusAppend(MenusJson(front), MenuJson(last));
    MenusJsonAppend(front, last);
  }

  /** Every menu bar that can be sent is accepted, entry for entry as it was sent. */
  lemma {:induction false} SentIsAccepted(menus: seq<Menu>)
    requires SendableMenus(menus)
    ensures AsMenus(MenusJson(menus)) == Some(menus)
  {
    if menus != [] {
      var front, last := menus[..|menus| - 1], menus[|menus| - 1];
      assert menus == front + [last];
      assert AsMenus(MenusJson(front + [last])) == Some(front + [last]) by {
        SentIsAccepted(front);
        OneMoreSent(front, last);
      }
    }
  }

  function Flatten(menus: seq<Menu>): seq<Entry> {
    if menus == [] then []
    else
      var m := menus[|menus| - 1];
      Flatten(menus[..|menus| - 1]) + [Top(m.caption)] + m.items
  }

  // ---------------------------------------------------------------- the parser

  lemma {:induction false} NoPrefixNoWhole(js: seq<Json>, n: nat)
    requires n <= |js|
    ensures AsItems(js[..n]).None? ==> AsItems(js).None?
    decreases |js| - n
  {
    if n == |js| {
      assert js[..n] == js;
    } else {
      assert js[..n + 1][..n] == js[..n];
      NoPrefixNoWhole(js, n + 1);
    }
  }

  /** What one more item does to the list behind `before`, or to all of them if it is none. */
  lemma OneMoreItem(js: seq<Json>, i: nat, before: seq<Entry>)
    requires i < |js| && AsItems(js[..i]).Some?
    ensures var e := AsItem(js[i]);
            if e.None? then AsItems(js).None?
            else AsItems(js[..i + 1]).Some?
                 && before + AsItems(js[..i + 1]).value == before + AsItems(js[..i]).value + [e.value]
  {
    assert js[..i + 1][..i] == js[..i];
    if AsItem(js[i]).None? {
      NoPrefixNoWhole(js, i + 1);
    }
  }

  lemma {:induction false} NoPrefixNoMenus(js: seq<Json>, n: nat)
    requires n <= |js|
    ensures AsMenus(js[..n]).None? ==> AsMenus(js).None?
    decreases |js| - n
  {
    if n == |js| {
      assert js[..n] == js;
    } else {
      assert js[..n + 1][..n] == js[..n];
      NoPrefixNoMenus(js, n + 1);
    }
  }

  /** What one more menu does to the list, or to the whole text if it is none. */
  lemma OneMoreMenu(js: seq<Json>, i: nat)
    requires i < |js| && AsMenus(js[..i]).Some?
    ensures var m := AsMenu(js[i]);
            if m.None? then AsMenus(js).None?
            else AsMenus(js[..i + 1]).Some?
                 && Flatten(AsMenus(js[..i + 1]).value)
                 == Flatten(AsMenus(js[..i]).value) + [Top(m.value.caption)] + m.value.items
  {
    assert js[..i + 1][..i] == js[..i];
    if AsMenu(js[i]).None? {
      NoPrefixNoMenus(js, i + 1);
    } else {
      var was, now := AsMenus(js[..i]).value, AsMenus(js[..i + 1]).value;
      assert now[..|now| - 1] == was && now[|now| - 1] == AsMenu(js[i]).value;
    }
  }

  /** `quaero_menu` under construction, and an allocator some of whose calls fail. */
  class Parser {
    var entries: seq<Entry>
    var calls: nat
    var failed: bool
    const fails: nat -> bool

    constructor (fails: nat -> bool)
      ensures entries == [] && !failed
    {
      this.fails := fails;
      entries, calls, failed := [], 0, false;
    }

    method Allocate() returns (ok: bool)
      modifies this`calls, this`failed
      ensures failed == (old(failed) || !ok)
    {
      ok := !fails(calls);
      failed := failed || !ok;
      calls := calls + 1;
    }

    /** `push`, with the copies of the entry's strings. */
    method Push(e: Entry) returns (ok: bool)
      modifies this
      ensures ok ==> entries == old(entries) + [e] && failed == old(failed)
      ensures !ok ==> failed
      ensures failed == (old(failed) || !ok)
    {
      ok := Allocate();
      if ok && !e.Separator? {
        var caption := Allocate();
        ok := ok && caption;
      }
      if ok && e.Item? {
        var id := Allocate();
        ok := ok && id;
        if e.accel.Some? {
          var accel := Allocate();
          ok := ok && accel;
        }
      }
      entries := entries + [e];
    }

    /** `parse_item`. */
    method ParseItem(item: Json) returns (ok: bool)
      modifies this
      ensures ok ==> AsItem(item).Some? && entries == old(entries) + [AsItem(item).value]
      ensures failed ==> old(failed) || !ok
      ensures old(failed) ==> failed
      ensures !ok && !failed ==> AsItem(item).None?
    {
      var sep, enabled := Get(item, "separator"), Get(item, "enabled");
      if !item.Object? {
        return false;
      }
      if sep == Some(Bool(true)) {
        ok := Push(Separator);
        return;
      }
      var id, caption, accel := GetString(item, "id"), GetString(item, "label"), GetString(item, "accel");
      if id.None? || id.value == "" || caption.None? {
        return false;
      }
      var shortcut := if accel == Some("") then None else accel;
      ok := Push(Item(id.value, caption.value, shortcut, enabled != Some(Bool(false))));
    }

    /** The loop of `parse_top` over the items; what it appended stays when it fails. */
    method ParseItems(js: seq<Json>) returns (ok: bool)
      modifies this
      ensures ok ==> AsItems(js).Some? && entries == old(entries) + AsItems(js).value
      ensures failed ==> old(failed) || !ok
      ensures old(failed) ==> failed
      ensures !ok && !failed ==> AsItems(js).None?
    {
      ghost var before := entries;
      ok := true;
      var i := 0;
      assert entries == before + [];
      while i < |js|
        invariant 0 <= i <= |js| && ok
        invariant AsItems(js[..i]).Some? && entries == before + AsItems(js[..i]).value
        invariant failed == old(failed)
      {
        ok := ParseItem(js[i]);
        OneMoreItem(js, i, before);
        if !ok {
          return;
        }
        i := i + 1;
      }
      assert js[..i] == js;
    }

    /** `parse_top`. */
    method ParseTop(top: Json) returns (ok: bool)
      modifies this
      ensures ok ==>
                var m := AsMenu(top);
                m.Some? && entries == old(entries) + [Top(m.value.caption)] + m.value.items
      ensures failed ==> old(failed) || !ok
      ensures old(failed) ==> failed
      ensures !ok && !failed ==> AsMenu(top).None?
    {
      var caption, items := GetString(top, "label"), Get(top, "items");
      if !top.Object? || caption.None? || items.None? || !items.value.Array? {
        return false;
      }
      ok := Push(Top(caption.value));
      if ok {
        ok := ParseItems(items.value.items);
      }
    }

    /** `quaero_menu_parse`, the loop over the menus; what it appended stays when it fails. */
    method ParseMenus(js: seq<Json>) returns (ok: bool)
      requires !failed && entries == []
      modifies this
      ensures ok <==> AsMenus(js).Some? && !failed
      ensures ok ==> entries == Flatten(AsMenus(js).value)
    {
      ok := true;
      var i := 0;
      while i < |js|
        invariant 0 <= i <= |js| && ok && !failed
        invariant AsMenus(js[..i]).Some? && entries == Flatten(AsMenus(js[..i]).value)
      {
        ok := ParseTop(js[i]);
        OneMoreMenu(js, i);
        if !ok {
          return;
        }
        i := i + 1;
      }
      assert js[..i] == js;
    }

    /** `quaero_menu_parse`. */
    method Parse(root: Option<Json>) returns (ok: bool)
      requires !failed
      modifies this
      ensures ok <==> Accepted(root).Some? && !failed
      ensures entries == if ok then Flatten(Accepted(root).value) else []
    {
      entries := [];
      match root {
        case Some(Array(js)) =>
          ok := ParseMenus(js);
          if !ok {
            entries := [];
          }
        case Some(Null) => ok := true;
        case _ => ok := false;
      }
    }
  }

  // ---------------------------------------------------------------- the native builder

  const MENU_CMD_BASE: nat := 1000

  /** What the toolkit shows of an entry; an item carries its command id. */
  datatype NativeItem =
    | NativeSeparator
    | NativeItem(command: nat, caption: string, accel: Option<string>, enabled: bool)

  datatype Popup = Popup(caption: string, items: seq<NativeItem>)

  function Native(e: Entry, i: nat): NativeItem
    requires !e.Top?
  {
    if e.Separator? then NativeSeparator else NativeItem(MENU_CMD_BASE + i, e.caption, e.accel, e.enabled)
  }

  /** One step of `build_menu_bar`: a top opens a popup, anything else goes into the last one. */
  function Added(bar: seq<Popup>, e: Entry, i: nat): seq<Popup> {
    if e.Top? then bar + [Popup(e.caption, [])]
    else if bar == [] then bar
    else
      var last := bar[|bar| - 1];
      bar[|bar| - 1 := last.(items := last.items + [Native(e, i)])]
  }

  function Bar(es: seq<Entry>): seq<Popup> {
    if es == [] then [] else Added(Bar(es[..|es| - 1]), es[|es| - 1], |es| - 1)
  }

  /** `build_menu_bar`. */
  method BuildMenuBar(es: seq<Entry>) returns (bar: seq<Popup>)
    ensures bar == Bar(es)
  {
    bar := [];
    var sub: Option<nat> := None;
    var i := 0;
    while i < |es|
      invariant 0 <= i <= |es| && bar == Bar(es[..i])
      invariant if bar == [] then sub == None else sub == Some(|bar| - 1)
    {
      var e := es[i];
      assert es[..i + 1][..i] == es[..i];
      if e.Top? {
        bar := bar + [Popup(e.caption, [])];
        sub := Some(|bar| - 1);
      } else if sub.Some? {
        var p := bar[sub.value];
        var shown := if e.Separator? then NativeSeparator
                     else NativeItem(MENU_CMD_BASE + i, e.caption, e.accel, e.enabled);
        bar := bar[sub.value := p.(items := p.items + [shown])];
      }
      i := i + 1;
    }
    assert es[..i] == es;
  }

  /** `run_menu_action`: the action behind a command id, if it names an item. */
  function ActionOf(es: seq<Entry>, command: int): Option<string> {
    var index := command - MENU_CMD_BASE;
    if 0 <= index < |es| && es[index].Item? then Some(es[index].id) else None
  }

  /** The entry a native item stands for: what it shows, and the action its command runs. */
  function Meaning(es: seq<Entry>, n: NativeItem): Option<Entry> {
    match n
    case NativeSeparator => Some(Separator)
    case NativeItem(command, caption, accel, enabled) =>
      var id := ActionOf(es, command);
      if id.Some? then Some(Item(id.value, caption, accel, enabled)) else None
  }

  /** The popup shows the menu, item by item. */
  predicate Shows(es: seq<Entry>, p: Popup, m: Menu) {
    p.caption == m.caption && |p.items| == |m.items|
    && forall k | 0 <= k < |m.items| :: Meaning(es, p.items[k]) == Some(m.items[k])
  }

  predicate ShowsAll(es: seq<Entry>, bar: seq<Popup>, menus: seq<Menu>) {
    |bar| == |menus| && forall k | 0 <= k < |menus| :: Shows(es, bar[k], menus[k])
  }

  /** Reading the items of one more menu off the list. */
  lemma {:induction false} ItemsShow(es: seq<Entry>, front: seq<Entry>, menus: seq<Menu>, caption: string,
                                     items: seq<Entry>)
    requires ShowsAll(es, Bar(front), menus) && ItemsOnly(items)
    requires front + [Top(caption)] + items <= es
    ensures ShowsAll(es, Bar(front + [Top(caption)] + items), menus + [Menu(caption, items)])
    decreases |items|
  {
    var all := front + [Top(caption)] + items;
    if items == [] {
      assert all[..|all| - 1] == front;
    } else {
      var rest, last := items[..|items| - 1], items[|items| - 1];
      assert all[..|all| - 1] == front + [Top(caption)] + rest;
      assert front + [Top(caption)] + rest <= es;
      ItemsShow(es, front, menus, caption, rest);
      assert all[|all| - 1] == last == es[|all| - 1];
    }
  }

  lemma {:induction false} PrefixShows(es: seq<Entry>, menus: seq<Menu>)
    requires Flatten(menus) <= es && forall m <- menus :: ItemsOnly(m.items)
    ensures ShowsAll(es, Bar(Flatten(menus)), menus)
    decreases |menus|
  {
    if menus != [] {
      var rest, m := menus[..|menus| - 1], menus[|menus| - 1];
      assert Flatten(menus) == Flatten(rest) + ([Top(m.caption)] + m.items);
      assert Flatten(rest) <= es;
      PrefixShows(es, rest);
      ItemsShow(es, Flatten(rest), rest, m.caption, m.items);
      assert menus == rest + [Menu(m.caption, m.items)];
    }
  }

  /** The list regroups: the native bar built from a flattened model shows exactly that model, and each
      item's command id runs its action. */
  lemma FlattenRoundTrips(menus: seq<Menu>)
    requires forall m <- menus :: ItemsOnly(m.items)
    ensures ShowsAll(Flatten(menus), Bar(Flatten(menus)), menus)
  {
    PrefixShows(Flatten(menus), menus);
  }

  /** Two models with the same list are the same model. */
  lemma {:induction false} FlattenIsInjective(a: seq<Menu>, b: seq<Menu>)
    requires (forall m <- a :: ItemsOnly(m.items)) && (forall m <- b :: ItemsOnly(m.items)) && Flatten(a) == Flatten(b)
    ensures a == b
  {
    FlattenRoundTrips(a);
    FlattenRoundTrips(b);
    forall k | 0 <= k < |a|
      ensures a[k] == b[k]
    {
      assert Shows(Flatten(a), Bar(Flatten(a))[k], a[k]) && Shows(Flatten(b), Bar(Flatten(b))[k], b[k]);
      assert a[k].items == b[k].items;
    }
  }

  /** An item before any menu, which the builder skips, is never in a list the parser makes. */
  lemma {:induction false} NoItemBeforeAMenu(menus: seq<Menu>)
    ensures Flatten(menus) != [] ==> Flatten(menus)[0].Top?
  {
    if menus != [] {
      NoItemBeforeAMenu(menus[..|menus| - 1]);
    }
  }
}
