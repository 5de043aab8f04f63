/** The navigation bar: report parts grouped into menus and submenus. */
module NavbarComponent {
  import opened Wrappers
  import opened Dicts

  /** unique_list, as a function: keeps the first occurrence of each element. */
  function Dedup<T(==)>(s: seq<T>): seq<T> {
    if s == [] then []
    else
      var d := Dedup(s[..|s| - 1]);
      if s[|s| - 1] in d then d else d + [s[|s| - 1]]
  }

  /** The position of the first occurrence of `x` in `s`. */
  function FirstIndex<T(==)>(s: seq<T>, x: T): (i: nat)
    requires x in s
    ensures i < |s| && s[i] == x && x !in s[..i]
  {
    if s[0] == x then 0 else 1 + FirstIndex(s[1..], x)
  }

  lemma {:induction false} DedupMembers<T>(s: seq<T>)
    ensures forall x :: x in Dedup(s) <==> x in s
  {
    if s != [] {
      DedupMembers(s[..|s| - 1]);
      assert s == s[..|s| - 1] + [s[|s| - 1]];
    }
  }

  lemma {:induction false} DedupDistinct<T>(s: seq<T>)
    ensures Distinct(Dedup(s))
  {
    if s != [] {
      DedupDistinct(s[..|s| - 1]);
    }
  }

  /** An occurrence with no earlier occurrence is the first one. */
  lemma {:induction false} FirstIndexUnique<T>(s: seq<T>, x: T, i: nat)
    requires i < |s| && s[i] == x && x !in s[..i]
    ensures FirstIndex(s, x) == i
  {
    if i > 0 {
      assert s[0] in s[..i];
      assert s[1..][..i - 1] == s[1..i];
      assert forall y :: y in s[1..i] ==> y in s[..i];
      FirstIndexUnique(s[1..], x, i - 1);
    }
  }

  /** A prefix's first occurrences are the whole sequence's first occurrences. */
  lemma FirstIndexPrefix<T>(s: seq<T>, n: nat, x: T)
    requires n <= |s| && x in s[..n]
    ensures FirstIndex(s[..n], x) == FirstIndex(s, x)
  {
    var i := FirstIndex(s[..n], x);
    assert s[..n][..i] == s[..i];
    FirstIndexUnique(s, x, i);
  }

  lemma DedupElement<T>(s: seq<T>, i: nat)
    requires i < |Dedup(s)|
    ensures Dedup(s)[i] in s
  {
    DedupMembers(s);
    assert Dedup(s)[i] in Dedup(s);
  }

  /** The elements of `d` occur in `s`, and in the order of their first occurrence there. */
  ghost predicate InFirstOccurrenceOrder<T>(d: seq<T>, s: seq<T>) {
    forall i, j :: 0 <= i < j < |d| ==> d[i] in s && d[j] in s && FirstIndex(s, d[i]) < FirstIndex(s, d[j])
  }

  /** Dedup lists elements in the order of their first occurrence in the input. */
  lemma {:induction false} DedupFirstOccurrenceOrder<T>(s: seq<T>)
    ensures InFirstOccurrenceOrder(Dedup(s), s)
  {
    if s != [] {
      var p := s[..|s| - 1];
      var last := s[|s| - 1];
      DedupFirstOccurrenceOrder(p);
      DedupMembers(p);
      var d := Dedup(s);
      var dp := Dedup(p);
      assert s == p + [last];
      assert d == dp || (d == dp + [last] && last !in p);
      forall i, j | 0 <= i < j < |d|
        ensures d[i] in s && d[j] in s && FirstIndex(s, d[i]) < FirstIndex(s, d[j])
      {
        assert d[i] == dp[i];
        DedupElement(p, i);
        FirstIndexPrefix(s, |s| - 1, d[i]);
        if j < |dp| {
          assert d[j] == dp[j];
          DedupElement(p, j);
          FirstIndexPrefix(s, |s| - 1, d[j]);
        } else {
          assert d[j] == last;
          FirstIndexUnique(s, last, |s| - 1);
        }
      }
      assert InFirstOccurrenceOrder(d, s);
    }
  }

  /** A sequence without repeats is its own Dedup. */
  lemma {:induction false} DedupOfDistinct<T>(s: seq<T>)
    requires Distinct(s)
    ensures Dedup(s) == s
  {
    if s != [] {
      var p := s[..|s| - 1];
      assert Distinct(p);
      DedupOfDistinct(p);
      assert s[|s| - 1] !in p;
      assert s == p + [s[|s| - 1]];
    }
  }

  /** unique_list is idempotent. */
  lemma DedupIdempotent<T>(s: seq<T>)
    ensures Dedup(Dedup(s)) == Dedup(s)
  {
    DedupDistinct(s);
    DedupOfDistinct(Dedup(s));
  }

  /** unique_list: grows the result by each element not seen yet. */
  method UniqueList<T(==)>(items: seq<T>) returns (u: seq<T>)
    ensures u == Dedup(items)
    ensures Distinct(u) && forall x :: x in u <==> x in items
  {
    u := [];
    var i := 0;
    while i < |items|
      invariant i <= |items|
      invariant u == Dedup(items[..i])
    {
      assert items[..i + 1][..i] == items[..i];
      if items[i] !in u {
        u := u + [items[i]];
      }
      i := i + 1;
    }
    assert items[..i] == items;
    DedupDistinct(items);
    DedupMembers(items);
  }

  /** The entries of `i_report_parts[name]` the navbar reads; None is an absent key. */
  datatype Part = Part(caption: Option<string>, menu: Option<string>, submenu: Option<string>)

  type ReportParts = OrderedDict<string, Part>

  const NotDefined := "not_defined"

  /** The submenu a part is filed under: its own, or "not_defined". */
  function SubmenuName(p: Part): string {
    if p.submenu.Some? then p.submenu.value else NotDefined
  }

  /** The part after __init__ has written back a missing submenu of a part with a menu. */
  function DefaultPart(p: Part): (q: Part)
    ensures q.caption == p.caption && q.menu == p.menu && SubmenuName(q) == SubmenuName(p)
    ensures q.menu.Some? ==> q.submenu.Some?
    ensures q.menu.None? || p.submenu.Some? ==> q == p
  {
    if p.menu.Some? && p.submenu.None? then p.(submenu := Some(NotDefined)) else p
  }

  /** The names among `ks` whose part has no "navbar_menu", in order. */
  function Standalone(ks: seq<string>, parts: map<string, Part>): (r: seq<string>)
    requires forall k :: k in ks ==> k in parts
    ensures forall k :: k in r <==> k in ks && parts[k].menu.None?
  {
    if ks == [] then []
    else
      var last := ks[|ks| - 1];
      Standalone(ks[..|ks| - 1], parts) + (if parts[last].menu.None? then [last] else [])
  }

  /** The menus of the parts among `ks` that have one, in order, with repeats. */
  function MenuSeq(ks: seq<string>, parts: map<string, Part>): (r: seq<string>)
    requires forall k :: k in ks ==> k in parts
    ensures forall m :: m in r <==> exists k :: k in ks && parts[k].menu == Some(m)
  {
    if ks == [] then []
    else
      var last := ks[|ks| - 1];
      var r0 := MenuSeq(ks[..|ks| - 1], parts);
      assert forall k :: k in ks <==> k in ks[..|ks| - 1] || k == last by {
        assert ks == ks[..|ks| - 1] + [last];
      }
      r0 + (if parts[last].menu.Some? then [parts[last].menu.value] else [])
  }

  /** The submenus of the parts among `ks` filed under `menu`, in order, with repeats. */
  function SubmenuSeq(menu: string, ks: seq<string>, parts: map<string, Part>): (r: seq<string>)
    requires forall k :: k in ks ==> k in parts
    ensures forall s :: s in r <==> exists k :: k in ks && parts[k].menu == Some(menu) && SubmenuName(parts[k]) == s
  {
    if ks == [] then []
    else
      var last := ks[|ks| - 1];
      var r0 := SubmenuSeq(menu, ks[..|ks| - 1], parts);
      assert forall k :: k in ks <==> k in ks[..|ks| - 1] || k == last by {
        assert ks == ks[..|ks| - 1] + [last];
      }
      r0 + (if parts[last].menu == Some(menu) then [SubmenuName(parts[last])] else [])
  }

  /** What a link or menu item shows. */
  datatype LinkKind = NavLink | MenuItem
  datatype Link = Link(kind: LinkKind, caption: string, href: Option<string>, icon: Option<string>)

  /**
   * The shared shape of create_menu_target and create_menu_item: an icon link when
   * `icons[name]` is truthy, a plain link when the key is missing, and an unbound `out`
   * when the key is present but falsy ("" stands for every falsy icon).
   */
  function IconLink(kind: LinkKind, name: string, href: Option<string>, icons: map<string, string>): (r: Result<Link>)
    ensures r.Err? <==> name in icons && icons[name] == ""
    ensures r.Err? ==> r.error == UnboundLocal
    ensures r.Ok? ==> r.value.kind == kind && r.value.caption == name && r.value.href == href
    ensures r.Ok? ==> (r.value.icon.Some? <==> name in icons)
    ensures r.Ok? && name in icons ==> r.value.icon == Some(icons[name])
  {
    if name in icons then
      if icons[name] != "" then Ok(Link(kind, name, href, Some(icons[name]))) else Err(UnboundLocal)
    else Ok(Link(kind, name, href, None))
  }

  /** A dropdown entry: a submenu label (with an optional icon) or a menu item. */
  datatype DropItem = MenuLabel(text: string, icon: Option<string>) | Item(link: Link)

  /** An entry of the navbar group: a hover menu or a standalone link. */
  datatype NavEntry = Menu(target: Link, dropdown: seq<DropItem>) | Single(link: Link)

  /** The text a submenu label shows. */
  function ShownName(submenu: string): (t: string)
    ensures t == "Other" <==> submenu == NotDefined || submenu == "Other"
  {
    if submenu == NotDefined then "Other" else submenu
  }

  /** The label emitted for `submenu` among a menu's `submenus` (none, or one). */
  function SubmenuLabel(submenu: string, submenus: seq<string>, icons: map<string, string>): (r: seq<DropItem>)
    ensures |r| <= 1
    ensures r == [] <==> (submenu == NotDefined && |submenus| == 1) || (submenu in icons && icons[submenu] == "")
    ensures r != [] ==> r[0] == MenuLabel(ShownName(submenu), if submenu in icons then Some(icons[submenu]) else None)
  {
    if submenu == NotDefined && |submenus| == 1 then []
    else if submenu in icons then
      (if icons[submenu] != "" then [MenuLabel(ShownName(submenu), Some(icons[submenu]))] else [])
    else [MenuLabel(ShownName(submenu), None)]
  }

  /** The parts among `reps` filed under (`menu`, `submenu`), in order. */
  function Matching(menu: string, submenu: string, reps: seq<string>, parts: map<string, Part>): (r: seq<string>)
    requires forall k :: k in reps ==> k in parts
    ensures forall k :: k in r <==> k in reps && parts[k].menu == Some(menu) && parts[k].submenu == Some(submenu)
  {
    if reps == [] then []
    else
      var last := reps[|reps| - 1];
      var r0 := Matching(menu, submenu, reps[..|reps| - 1], parts);
      assert forall k :: k in reps <==> k in reps[..|reps| - 1] || k == last by {
        assert reps == reps[..|reps| - 1] + [last];
      }
      r0 + (if parts[last].menu == Some(menu) && parts[last].submenu == Some(submenu) then [last] else [])
  }

  /**
   * The menu items of one (menu, submenu) pair: each of `reps` is tested on both its
   * "navbar_menu" and "navbar_submenu" (a missing one raises KeyError), and a match
   * becomes a menu item named by its "label".
   */
  function MenuItems(menu: string, submenu: string, reps: seq<string>, parts: map<string, Part>,
                     icons: map<string, string>): (r: Result<seq<Link>>)
    requires forall k :: k in reps ==> k in parts
    ensures r.Ok? ==> forall k :: k in reps ==> parts[k].menu.Some? && parts[k].submenu.Some?
    ensures r.Ok? ==> |r.value| == |Matching(menu, submenu, reps, parts)|
    ensures r.Ok? ==> forall i :: 0 <= i < |r.value| ==>
      var k := Matching(menu, submenu, reps, parts)[i];
      parts[k].caption.Some? && r.value[i].kind == MenuItem &&
      r.value[i].caption == parts[k].caption.value && r.value[i].href == Some(k)
  {
    if reps == [] then Ok([])
    else
      var last := reps[|reps| - 1];
      match MenuItems(menu, submenu, reps[..|reps| - 1], parts, icons)
      case Err(e) => Err(e)
      case Ok(items) =>
        var p := parts[last];
        if p.menu.None? || p.submenu.None? then Err(KeyError)
        else if p.menu.value != menu || p.submenu.value != submenu then Ok(items)
        else if p.caption.None? then Err(KeyError)
        else match IconLink(MenuItem, p.caption.value, Some(last), icons)
             case Err(e) => Err(e)
             case Ok(item) => Ok(items + [item])
  }

  /** Wraps menu items as dropdown entries. */
  function Items(links: seq<Link>): (r: seq<DropItem>)
    ensures |r| == |links| && forall i :: 0 <= i < |links| ==> r[i] == Item(links[i])
  {
    if links == [] then [] else [Item(links[0])] + Items(links[1..])
  }

  /** One submenu's part of a dropdown: its label, then its items, unless the items fail. */
  function Section(menu: string, sub: string, submenus: seq<string>, reps: seq<string>,
                   parts: map<string, Part>, icons: map<string, string>): Result<seq<DropItem>>
    requires forall k :: k in reps ==> k in parts
  {
    match MenuItems(menu, sub, reps, parts, icons)
    case Err(e) => Err(e)
    case Ok(items) => Ok(SubmenuLabel(sub, submenus, icons) + Items(items))
  }

  /** The sections of `subs`, one per submenu, in order. */
  function SectionsOf(menu: string, subs: seq<string>, submenus: seq<string>, reps: seq<string>,
                      parts: map<string, Part>, icons: map<string, string>): seq<Result<seq<DropItem>>>
    requires forall k :: k in reps ==> k in parts
  {
    if subs == [] then []
    else SectionsOf(menu, subs[..|subs| - 1], submenus, reps, parts, icons)
         + [Section(menu, subs[|subs| - 1], submenus, reps, parts, icons)]
  }

  /** Sections read front to back and joined: the first one that fails decides the error. */
  function Joined<T>(rs: seq<Result<seq<T>>>): Result<seq<T>>
  {
    if rs == [] then Ok([])
    else
      match rs[0]
      case Err(e) => Err(e)
      case Ok(head) =>
        match Joined(rs[1..])
        case Err(e) => Err(e)
        case Ok(rest) => Ok(head + rest)
  }

  /** Read back to front, the join is that of all but the last, then the last. */
  lemma {:induction false} JoinedSnoc<T>(rs: seq<Result<seq<T>>>)
    requires rs != []
    ensures var init := Joined(rs[..|rs| - 1]);
      Joined(rs) == if init.Err? then init else if rs[|rs| - 1].Err? then rs[|rs| - 1]
                    else Ok(init.value + rs[|rs| - 1].value)
  {
    var init := rs[..|rs| - 1];
    if |rs| > 1 {
      JoinedSnoc(rs[1..]);
      assert rs[1..][..|rs| - 2] == init[1..];
      assert init[0] == rs[0];
      var middle := Joined(init[1..]);
      if rs[0].Ok? && middle.Ok? && rs[|rs| - 1].Ok? {
        assert rs[0].value + (middle.value + rs[|rs| - 1].value) == (rs[0].value + middle.value) + rs[|rs| - 1].value;
      }
    } else {
      assert init == [] && rs[1..] == [];
      if rs[0].Ok? {
        assert rs[0].value + [] == [] + rs[0].value;
      }
    }
  }

  /** The dropdown of `menu` after its first submenus `subs`, built as create_links builds it. */
  function Dropdown(menu: string, subs: seq<string>, submenus: seq<string>, reps: seq<string>,
                    parts: map<string, Part>, icons: map<string, string>): Result<seq<DropItem>>
    requires forall k :: k in reps ==> k in parts
  {
    if subs == [] then Ok([])
    else
      var sub := subs[|subs| - 1];
      match Dropdown(menu, subs[..|subs| - 1], submenus, reps, parts, icons)
      case Err(e) => Err(e)
      case Ok(before) =>
        match MenuItems(menu, sub, reps, parts, icons)
        case Err(e) => Err(e)
        case Ok(items) => Ok(before + SubmenuLabel(sub, submenus, icons) + Items(items))
  }

  /** One more submenu adds its section to the dropdown, unless the dropdown or the section fails. */
  lemma DropdownStep(menu: string, subs: seq<string>, submenus: seq<string>, reps: seq<string>,
                     parts: map<string, Part>, icons: map<string, string>)
    requires forall k :: k in reps ==> k in parts
    requires subs != []
    ensures var before := Dropdown(menu, subs[..|subs| - 1], submenus, reps, parts, icons);
      var last := Section(menu, subs[|subs| - 1], submenus, reps, parts, icons);
      Dropdown(menu, subs, submenus, reps, parts, icons) ==
        if before.Err? then before else if last.Err? then last else Ok(before.value + last.value)
  {
    var last := subs[|subs| - 1];
    var before := Dropdown(menu, subs[..|subs| - 1], submenus, reps, parts, icons);
    var items := MenuItems(menu, last, reps, parts, icons);
    var d := Dropdown(menu, subs, submenus, reps, parts, icons);
    if before.Err? {
      assert d == before;
    } else if items.Err? {
      assert Section(menu, last, submenus, reps, parts, icons) == Err(items.error);
      assert d == Err(items.error);
    } else {
      var heading, found := SubmenuLabel(last, submenus, icons), Items(items.value);
      assert Section(menu, last, submenus, reps, parts, icons) == Ok(heading + found);
      assert d == Ok(before.value + heading + found);
      assert before.value + heading + found == before.value + (heading + found);
    }
  }

  /**
   * A dropdown is its submenus' sections, in order: each submenu's label followed by its
   * items, and the error of the first submenu whose items fail.
   */
  lemma {:induction false} DropdownIsSections(menu: string, subs: seq<string>, submenus: seq<string>,
                                              reps: seq<string>, parts: map<string, Part>, icons: map<string, string>)
    requires forall k :: k in reps ==> k in parts
    ensures Dropdown(menu, subs, submenus, reps, parts, icons) == Joined(SectionsOf(menu, subs, submenus, reps, parts, icons))
  {
    if subs != [] {
      var sections := SectionsOf(menu, subs, submenus, reps, parts, icons);
      DropdownIsSections(menu, subs[..|subs| - 1], submenus, reps, parts, icons);
      DropdownStep(menu, subs, submenus, reps, parts, icons);
      JoinedSnoc(sections);
      assert sections[..|sections| - 1] == SectionsOf(menu, subs[..|subs| - 1], submenus, reps, parts, icons);
    }
  }

  /**
   * The state of the report parts while __init__ runs: a part is defaulted once its menu
   * is among `done`, or is `x` and the part is among `seen`; every other part is as given.
   */
  ghost predicate DefaultedSoFar(cur: map<string, Part>, parts0: map<string, Part>, done: seq<string>,
                                 x: string, seen: seq<string>)
  {
    (forall k :: k in cur <==> k in parts0) &&
    forall k :: k in parts0 ==>
      (cur[k] == if parts0[k].menu.Some? && (parts0[k].menu.value in done || (parts0[k].menu.value == x && k in seen))
                 then DefaultPart(parts0[k]) else parts0[k])
  }

  /** Once every menu is done, every part is defaulted. */
  lemma DefaultedAll(cur: map<string, Part>, parts0: map<string, Part>, menus: seq<string>)
    requires DefaultedSoFar(cur, parts0, menus, "", [])
    requires forall k :: k in parts0 && parts0[k].menu.Some? ==> parts0[k].menu.value in menus
    ensures cur == map k | k in parts0 :: DefaultPart(parts0[k])
  {
  }

  /** The loop of __init__ that collects the parts without a "navbar_menu". */
  method StandaloneLinks(reportParts: ReportParts) returns (standalone: seq<string>)
    requires reportParts.Valid()
    ensures standalone == Standalone(reportParts.keys, reportParts.entries)
  {
    var ks := reportParts.keys;
    standalone := [];
    for i := 0 to |ks|
      invariant standalone == Standalone(ks[..i], reportParts.entries)
    {
      assert ks[..i + 1][..i] == ks[..i];
      if reportParts.entries[ks[i]].menu.None? {
        standalone := standalone + [ks[i]];
      }
    }
    assert ks[..|ks|] == ks;
  }

  /** The generator fed to unique_list: the menu of every part not in `standalone`. */
  method GroupedMenus(reportParts: ReportParts, standalone: seq<string>) returns (menuSeq: seq<string>)
    requires reportParts.Valid()
    requires standalone == Standalone(reportParts.keys, reportParts.entries)
    ensures menuSeq == MenuSeq(reportParts.keys, reportParts.entries)
  {
    var ks := reportParts.keys;
    menuSeq := [];
    for i := 0 to |ks|
      invariant menuSeq == MenuSeq(ks[..i], reportParts.entries)
    {
      assert ks[..i + 1][..i] == ks[..i];
      if ks[i] !in standalone {
        menuSeq := menuSeq + [reportParts.entries[ks[i]].menu.value];
      }
    }
    assert ks[..|ks|] == ks;
  }

  /**
   * One pass of __init__ over all parts for menu `x`: collects their submenus and writes
   * "not_defined" into those that have none.
   */
  method CollectSubmenus(reportParts: ReportParts, x: string, ghost parts0: map<string, Part>,
                         ghost done: seq<string>) returns (subs: seq<string>)
    requires reportParts.Valid() && x !in done
    requires DefaultedSoFar(reportParts.entries, parts0, done, x, [])
    modifies reportParts
    ensures reportParts.Valid() && reportParts.keys == old(reportParts.keys)
    ensures DefaultedSoFar(reportParts.entries, parts0, done + [x], x, [])
    ensures subs == SubmenuSeq(x, reportParts.keys, parts0)
  {
    var ks := reportParts.keys;
    subs := [];
    for r := 0 to |ks|
      invariant reportParts.Valid() && reportParts.keys == ks
      invariant DefaultedSoFar(reportParts.entries, parts0, done, x, ks[..r])
      invariant subs == SubmenuSeq(x, ks[..r], parts0)
    {
      subs := CollectStep(reportParts, x, parts0, done, r, subs);
    }
    assert ks[..|ks|] == ks;
  }

  /** One iteration of that pass: the part at position `r`. */
  method CollectStep(reportParts: ReportParts, x: string, ghost parts0: map<string, Part>,
                     ghost done: seq<string>, r: nat, subs: seq<string>) returns (subs': seq<string>)
    requires reportParts.Valid() && r < |reportParts.keys| && x !in done
    requires DefaultedSoFar(reportParts.entries, parts0, done, x, reportParts.keys[..r])
    requires subs == SubmenuSeq(x, reportParts.keys[..r], parts0)
    modifies reportParts
    ensures reportParts.Valid() && reportParts.keys == old(reportParts.keys)
    ensures DefaultedSoFar(reportParts.entries, parts0, done, x, reportParts.keys[..r + 1])
    ensures subs' == SubmenuSeq(x, reportParts.keys[..r + 1], parts0)
  {
    ghost var ks := reportParts.keys;
    var rep := reportParts.keys[r];
    TakeSnoc(ks, r);
    assert ks[..r + 1][..r] == ks[..r];
    assert rep !in ks[..r];
    var p := reportParts.entries[rep];
    subs' := subs;
    if p.menu == Some(x) {
      if p.submenu.Some? {
        subs' := subs + [p.submenu.value];
      } else {
        subs' := subs + [NotDefined];
        reportParts.Put(rep, p.(submenu := Some(NotDefined)));
      }
    }
    forall k | k in parts0
      ensures k in ks[..r + 1] <==> k in ks[..r] || k == rep
    {
    }
  }

  /** The nav_tree loop of __init__: each menu's distinct submenus, with the write-back. */
  method BuildNavTree(reportParts: ReportParts, menus: seq<string>) returns (tree: OrderedDict<string, seq<string>>)
    requires reportParts.Valid() && Distinct(menus)
    modifies reportParts
    ensures fresh(tree) && tree.Valid() && tree.keys == menus
    ensures forall m :: m in tree.entries ==> tree.entries[m] == Dedup(SubmenuSeq(m, old(reportParts.keys), old(reportParts.entries)))
    ensures reportParts.Valid() && reportParts.keys == old(reportParts.keys)
    ensures DefaultedSoFar(reportParts.entries, old(reportParts.entries), menus, "", [])
  {
    ghost var parts0 := reportParts.entries;
    tree := new OrderedDict<string, seq<string>>();
    var mi := 0;
    while mi < |menus|
      invariant mi <= |menus|
      invariant tree.Valid() && fresh(tree) && tree.keys == menus[..mi]
      invariant forall m :: m in tree.entries ==> tree.entries[m] == Dedup(SubmenuSeq(m, old(reportParts.keys), parts0))
      invariant reportParts.Valid() && reportParts.keys == old(reportParts.keys)
      invariant DefaultedSoFar(reportParts.entries, parts0, menus[..mi], "", [])
    {
      var x := menus[mi];
      assert x !in menus[..mi];
      assert DefaultedSoFar(reportParts.entries, parts0, menus[..mi], x, []);
      var subs := CollectSubmenus(reportParts, x, parts0, menus[..mi]);
      var u := UniqueList(subs);
      tree.Put(x, u);
      assert menus[..mi + 1] == menus[..mi] + [x];
      mi := mi + 1;
    }
    assert menus[..mi] == menus;
  }

  /** The dropdown after one more submenu: the one before it, that submenu's label, then its items. */
  lemma DropdownSnoc(menu: string, subs: seq<string>, n: nat, submenus: seq<string>, reps: seq<string>,
                     parts: map<string, Part>, icons: map<string, string>)
    requires forall k :: k in reps ==> k in parts
    requires n < |subs| && Dropdown(menu, subs[..n], submenus, reps, parts, icons).Ok?
    ensures MenuItems(menu, subs[n], reps, parts, icons).Err? ==>
      Dropdown(menu, subs[..n + 1], submenus, reps, parts, icons) == Err(MenuItems(menu, subs[n], reps, parts, icons).error)
    ensures MenuItems(menu, subs[n], reps, parts, icons).Ok? ==>
      Dropdown(menu, subs[..n + 1], submenus, reps, parts, icons) ==
      Ok(Dropdown(menu, subs[..n], submenus, reps, parts, icons).value + SubmenuLabel(subs[n], submenus, icons)
         + Items(MenuItems(menu, subs[n], reps, parts, icons).value))
  {
    assert subs[..n + 1][..n] == subs[..n];
  }

  /** A dropdown that fails on a prefix of the submenus fails on all of them, with that error. */
  lemma {:induction false} DropdownErrSticks(menu: string, subs: seq<string>, n: nat, submenus: seq<string>,
                                             reps: seq<string>, parts: map<string, Part>, icons: map<string, string>)
    requires forall k :: k in reps ==> k in parts
    requires n <= |subs| && Dropdown(menu, subs[..n], submenus, reps, parts, icons).Err?
    ensures Dropdown(menu, subs, submenus, reps, parts, icons) == Dropdown(menu, subs[..n], submenus, reps, parts, icons)
    decreases |subs| - n
  {
    if n < |subs| {
      assert subs[..n + 1][..n] == subs[..n];
      DropdownErrSticks(menu, subs, n + 1, submenus, reps, parts, icons);
    } else {
      assert subs[..n] == subs;
    }
  }

  /** Navbar: the report parts it was given and the grouping it computed from them. */
  class Navbar {
    const reportParts: ReportParts
    const standaloneLinks: seq<string>
    const navTree: OrderedDict<string, seq<string>>
    const icons: map<string, string>
    const reportName: string
    const reportLogo: string
    const reportBug: Option<string>

    ghost predicate Valid()
      reads this, reportParts, navTree
    {
      reportParts.Valid() && navTree.Valid()
    }

    /**
     * __init__: collects the standalone parts, groups the others by menu and submenu,
     * and writes "not_defined" into every grouped part that has no submenu.
     */
    constructor (reportParts: ReportParts, icons: map<string, string>, reportName: string,
                 reportLogo: string, reportBug: Option<string>)
      requires reportParts.Valid()
      modifies reportParts
      ensures Valid() && fresh(navTree)
      ensures this.reportParts == reportParts && this.icons == icons
      ensures this.reportName == reportName && this.reportLogo == reportLogo && this.reportBug == reportBug
      ensures standaloneLinks == Standalone(old(reportParts.keys), old(reportParts.entries))
      ensures navTree.keys == Dedup(MenuSeq(old(reportParts.keys), old(reportParts.entries)))
      ensures forall m :: m in navTree.entries ==>
        navTree.entries[m] == Dedup(SubmenuSeq(m, old(reportParts.keys), old(reportParts.entries)))
      ensures reportParts.keys == old(reportParts.keys)
      ensures reportParts.entries == map k | k in old(reportParts.entries) :: DefaultPart(old(reportParts.entries)[k])
    {
      var standalone := StandaloneLinks(reportParts);
      var menuSeq := GroupedMenus(reportParts, standalone);
      var menus := UniqueList(menuSeq);
      DedupDistinct(menuSeq);
      ghost var parts0 := reportParts.entries;
      var tree := BuildNavTree(reportParts, menus);
      forall k | k in parts0 && parts0[k].menu.Some?
        ensures parts0[k].menu.value in menus
      {
        DedupMembers(menuSeq);
      }
      DefaultedAll(reportParts.entries, parts0, menus);
      this.reportParts := reportParts;
      this.standaloneLinks := standalone;
      this.navTree := tree;
      this.icons := icons;
      this.reportName := reportName;
      this.reportLogo := reportLogo;
      this.reportBug := reportBug;
    }

    /** The parts not in `standaloneLinks`, in the order of the report parts. */
    function Grouped(ks: seq<string>): (r: seq<string>)
      reads this
      ensures forall k :: k in r <==> k in ks && k !in standaloneLinks
    {
      if ks == [] then []
      else
        var last := ks[|ks| - 1];
        var r0 := Grouped(ks[..|ks| - 1]);
        assert forall k :: k in ks <==> k in ks[..|ks| - 1] || k == last by {
          assert ks == ks[..|ks| - 1] + [last];
        }
        r0 + (if last !in standaloneLinks then [last] else [])
    }

    /** The hover menus for the first `menus` of the tree, then nothing else. */
    function MenuEntries(menus: seq<string>): (r: Result<seq<NavEntry>>)
      requires Valid()
      requires forall m :: m in menus ==> m in navTree.entries
      reads this, reportParts, navTree
      ensures r.Ok? ==> |r.value| == |menus|
      ensures r.Ok? ==> forall i :: 0 <= i < |menus| ==>
        r.value[i].Menu? && r.value[i].target == Link(NavLink, menus[i], None, r.value[i].target.icon)
    {
      if menus == [] then Ok([])
      else
        var menu := menus[|menus| - 1];
        match MenuEntries(menus[..|menus| - 1])
        case Err(e) => Err(e)
        case Ok(before) =>
          var submenus := navTree.entries[menu];
          match Dropdown(menu, submenus, submenus, Grouped(reportParts.keys), reportParts.entries, icons)
          case Err(e) => Err(e)
          case Ok(dropdown) =>
            match IconLink(NavLink, menu, None, icons)
            case Err(e) => Err(e)
            case Ok(target) => Ok(before + [Menu(target, dropdown)])
    }

    /** The standalone links among `singles`, each named by its part's label. */
    function SingleEntries(singles: seq<string>): (r: Result<seq<NavEntry>>)
      requires Valid()
      reads this, reportParts, navTree
      ensures r.Ok? ==> |r.value| == |singles|
      ensures r.Ok? ==> forall i :: 0 <= i < |singles| ==>
        singles[i] in reportParts.entries && reportParts.entries[singles[i]].caption.Some? &&
        r.value[i].Single? && r.value[i].link.href == Some(singles[i]) &&
        r.value[i].link.caption == reportParts.entries[singles[i]].caption.value
    {
      if singles == [] then Ok([])
      else
        var single := singles[|singles| - 1];
        match SingleEntries(singles[..|singles| - 1])
        case Err(e) => Err(e)
        case Ok(before) =>
          if single !in reportParts.entries || reportParts.entries[single].caption.None? then Err(KeyError)
          else match IconLink(NavLink, reportParts.entries[single].caption.value, Some(single), icons)
               case Err(e) => Err(e)
               case Ok(link) => Ok(before + [Single(link)])
    }

    /** The inner loop of create_links: one menu's dropdown, submenu by submenu. */
    method BuildDropdown(menu: string, submenus: seq<string>, reps: seq<string>) returns (r: Result<seq<DropItem>>)
      requires Valid() && forall k :: k in reps ==> k in reportParts.entries
      ensures r == Dropdown(menu, submenus, submenus, reps, reportParts.entries, icons)
    {
      var dropdown := [];
      for si := 0 to |submenus|
        invariant Dropdown(menu, submenus[..si], submenus, reps, reportParts.entries, icons) == Ok(dropdown)
      {
        var submenu := submenus[si];
        var heading := SubmenuLabel(submenu, submenus, icons);
        var items := MenuItems(menu, submenu, reps, reportParts.entries, icons);
        DropdownSnoc(menu, submenus, si, submenus, reps, reportParts.entries, icons);
        if items.Err? {
          DropdownErrSticks(menu, submenus, si + 1, submenus, reps, reportParts.entries, icons);
          return Err(items.error);
        }
        dropdown := dropdown + heading + Items(items.value);
      }
      assert submenus[..|submenus|] == submenus;
      r := Ok(dropdown);
    }

    /** The outer loop of create_links: one hover menu per menu of the tree, in order. */
    method MenuLinks(reps: seq<string>) returns (r: Result<seq<NavEntry>>)
      requires Valid() && forall k :: k in reps ==> k in reportParts.entries
      requires reps == Grouped(reportParts.keys)
      ensures r == MenuEntries(navTree.keys)
    {
      var links := [];
      for mi := 0 to |navTree.keys|
        invariant MenuEntries(navTree.keys[..mi]) == Ok(links)
      {
        var menu := navTree.keys[mi];
        var submenus := navTree.entries[menu];
        MenuEntriesSnoc(navTree.keys, mi);
        var dropdown := BuildDropdown(menu, submenus, reps);
        if dropdown.Err? {
          MenuEntriesErrSticks(navTree.keys, mi + 1);
          return Err(dropdown.error);
        }
        var target := IconLink(NavLink, menu, None, icons);
        if target.Err? {
          MenuEntriesErrSticks(navTree.keys, mi + 1);
          return Err(target.error);
        }
        links := links + [Menu(target.value, dropdown.value)];
      }
      assert navTree.keys[..|navTree.keys|] == navTree.keys;
      r := Ok(links);
    }

    /** The last loop of create_links: one link per standalone part, in order. */
    method SingleLinks() returns (r: Result<seq<NavEntry>>)
      requires Valid()
      ensures r == SingleEntries(standaloneLinks)
    {
      var singles := [];
      for j := 0 to |standaloneLinks|
        invariant SingleEntries(standaloneLinks[..j]) == Ok(singles)
      {
        var single := standaloneLinks[j];
        SingleEntriesSnoc(standaloneLinks, j);
        if single !in reportParts.entries || reportParts.entries[single].caption.None? {
          SingleEntriesErrSticks(standaloneLinks, j + 1);
          return Err(KeyError);
        }
        var link := IconLink(NavLink, reportParts.entries[single].caption.value, Some(single), icons);
        if link.Err? {
          SingleEntriesErrSticks(standaloneLinks, j + 1);
          return Err(link.error);
        }
        singles := singles + [Single(link.value)];
      }
      assert standaloneLinks[..|standaloneLinks|] == standaloneLinks;
      r := Ok(singles);
    }

    /** create_links: one hover menu per menu of the tree, in order, then the standalone links. */
    method CreateLinks() returns (r: Result<seq<NavEntry>>)
      requires Valid()
      ensures r.Ok? <==> MenuEntries(navTree.keys).Ok? && SingleEntries(standaloneLinks).Ok?
      ensures r.Ok? ==> r.value == MenuEntries(navTree.keys).value + SingleEntries(standaloneLinks).value
    {
      var reps := Grouped(reportParts.keys);
      var links := MenuLinks(reps);
      if links.Err? {
        return Err(links.error);
      }
      var singles := SingleLinks();
      if singles.Err? {
        return Err(singles.error);
      }
      r := Ok(links.value + singles.value);
    }

    /** The menu entries after one more menu: that menu's dropdown and target, unless one fails. */
    lemma MenuEntriesSnoc(menus: seq<string>, n: nat)
      requires Valid() && forall m :: m in menus ==> m in navTree.entries
      requires n < |menus| && MenuEntries(menus[..n]).Ok?
      ensures var menu := menus[n];
        var dropdown := Dropdown(menu, navTree.entries[menu], navTree.entries[menu], Grouped(reportParts.keys),
                                 reportParts.entries, icons);
        var target := IconLink(NavLink, menu, None, icons);
        MenuEntries(menus[..n + 1]) ==
          if dropdown.Err? then Err(dropdown.error)
          else if target.Err? then Err(target.error)
          else Ok(MenuEntries(menus[..n]).value + [Menu(target.value, dropdown.value)])
    {
      assert menus[..n + 1][..n] == menus[..n];
    }

    /** The dropdown `menu` gets in the navbar: one section per submenu of the tree. */
    function MenuDropdown(menu: string): Result<seq<DropItem>>
      requires Valid() && menu in navTree.entries
      reads this, reportParts, navTree
    {
      Dropdown(menu, navTree.entries[menu], navTree.entries[menu], Grouped(reportParts.keys), reportParts.entries, icons)
    }

    /**
     * create_links fails exactly when the dropdown or the target of one menu fails; otherwise
     * its i-th hover menu is the i-th menu's target link and dropdown.
     */
    lemma {:induction false} MenuEntriesAt(menus: seq<string>)
      requires Valid() && forall m :: m in menus ==> m in navTree.entries
      ensures MenuEntries(menus).Ok? <==>
        forall i :: 0 <= i < |menus| ==> MenuDropdown(menus[i]).Ok? && IconLink(NavLink, menus[i], None, icons).Ok?
      ensures MenuEntries(menus).Ok? ==> forall i :: 0 <= i < |menus| ==>
        MenuEntries(menus).value[i] == Menu(IconLink(NavLink, menus[i], None, icons).value, MenuDropdown(menus[i]).value)
    {
      if menus != [] {
        var n := |menus| - 1;
        var init := menus[..n];
        MenuEntriesAt(init);
        assert forall i :: 0 <= i < n ==> init[i] == menus[i];
        if MenuEntries(init).Ok? {
          MenuEntriesSnoc(menus, n);
        } else {
          MenuEntriesErrSticks(menus, n);
        }
        assert menus[..n + 1] == menus;
      }
    }

    /** Menu entries that fail on a prefix of the menus fail on all of them, with that error. */
    lemma {:induction false} MenuEntriesErrSticks(menus: seq<string>, n: nat)
      requires Valid() && forall m :: m in menus ==> m in navTree.entries
      requires n <= |menus| && MenuEntries(menus[..n]).Err?
      ensures MenuEntries(menus) == MenuEntries(menus[..n])
      decreases |menus| - n
    {
      if n < |menus| {
        assert menus[..n + 1][..n] == menus[..n];
        MenuEntriesErrSticks(menus, n + 1);
      } else {
        assert menus[..n] == menus;
      }
    }

    /** The standalone entries after one more part: its link, unless the lookup or the icon fails. */
    lemma SingleEntriesSnoc(singles: seq<string>, n: nat)
      requires Valid()
      requires n < |singles| && SingleEntries(singles[..n]).Ok?
      ensures var single := singles[n];
        SingleEntries(singles[..n + 1]) ==
          if single !in reportParts.entries || reportParts.entries[single].caption.None? then Err(KeyError)
          else
            var link := IconLink(NavLink, reportParts.entries[single].caption.value, Some(single), icons);
            if link.Err? then Err(link.error)
            else Ok(SingleEntries(singles[..n]).value + [Single(link.value)])
    {
      assert singles[..n + 1][..n] == singles[..n];
    }

    /** Standalone entries that fail on a prefix fail on the whole list, with that error. */
    lemma {:induction false} SingleEntriesErrSticks(singles: seq<string>, n: nat)
      requires Valid()
      requires n <= |singles| && SingleEntries(singles[..n]).Err?
      ensures SingleEntries(singles) == SingleEntries(singles[..n])
      decreases |singles| - n
    {
      if n < |singles| {
        assert singles[..n + 1][..n] == singles[..n];
        SingleEntriesErrSticks(singles, n + 1);
      } else {
        assert singles[..n] == singles;
      }
    }
  }
}
