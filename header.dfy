/**
 * The site header: which navigation entry is highlighted, whether the page has
 * been scrolled past the header threshold, and whether the mobile menu is open.
 *
 * Browser facts (the scroll offset, the current pathname and hash, the ids of
 * the elements present in the document, and the entries an intersection
 * observer reports) are parameters. The header's state is a `NavState` value;
 * the pure functions below are the transitions, and the `Header` class holds
 * the same state in fields that its event handlers update.
 */
module Navigation {
  import opened Wrappers

  // ---------------------------------------------------------------------------
  // The navigation table
  // ---------------------------------------------------------------------------

  /** A section entry scrolls to an anchor of the home page; a route entry is a separate page. */
  datatype NavKind = Section | Route

  datatype NavItem = NavItem(name: string, id: string, href: string, kind: NavKind)

  /** The header's navigation entries, in display order. */
  const NavItems: seq<NavItem> := [
    NavItem("About", "about", "/#about", Section),
    NavItem("Skills", "skills", "/#skills", Section),
    NavItem("Projects", "projects", "/#projects", Section),
    NavItem("Contact", "contact", "/contact", Route)
  ]

  /** The ids of the section entries of `items`, in order. */
  function SectionIdsOf(items: seq<NavItem>): (ids: seq<string>)
    ensures |ids| <= |items|
    ensures forall id :: id in ids <==> exists i :: 0 <= i < |items| && items[i].kind == Section && items[i].id == id
  {
    if items == [] then []
    else
      var rest := SectionIdsOf(items[1..]);
      assert forall i :: 0 <= i < |items| - 1 ==> items[1..][i] == items[i + 1];
      (if items[0].kind == Section then [items[0].id] else []) + rest
  }

  /** The ids the scroll tracking looks for, in order. */
  const SectionIds: seq<string> := SectionIdsOf(NavItems)

  lemma SectionIdsValue()
    ensures SectionIds == ["about", "skills", "projects"]
  {
  }

  /**
   * The table's invariants: ids are distinct, every section entry links to its
   * anchor on the home page, and the only route entry is the contact page.
   */
  lemma NavItemsWellFormed()
    ensures forall i, j :: 0 <= i < j < |NavItems| ==> NavItems[i].id != NavItems[j].id
    ensures forall i :: 0 <= i < |NavItems| && NavItems[i].kind == Section ==> NavItems[i].href == "/#" + NavItems[i].id
    ensures forall i :: 0 <= i < |NavItems| && NavItems[i].kind == Route ==>
      NavItems[i].id == "contact" && NavItems[i].href == "/contact"
    ensures exists i :: 0 <= i < |NavItems| && NavItems[i].kind == Route
  {
    assert NavItems[3].kind == Route;
  }

  // ---------------------------------------------------------------------------
  // Strings and the document
  // ---------------------------------------------------------------------------

  function LowerChar(c: char): char {
    if 'A' <= c <= 'Z' then (c as int + 32) as char else c
  }

  /** `toLowerCase`, on the ASCII letters. */
  function ToLower(s: string): (r: string)
    ensures |r| == |s|
    ensures forall i :: 0 <= i < |s| ==> r[i] == LowerChar(s[i])
  {
    if s == [] then [] else [LowerChar(s[0])] + ToLower(s[1..])
  }

  /** The position of the first `c` in `s`, or -1 when `s` has none. */
  function FirstIndex(s: string, c: char): (k: int)
    ensures -1 <= k < |s|
    ensures k >= 0 ==> s[k] == c
    ensures forall j :: 0 <= j < |s| && (k < 0 || j < k) ==> s[j] != c
  {
    if s == [] then -1
    else if s[0] == c then 0
    else
      var k := FirstIndex(s[1..], c);
      if k < 0 then -1 else k + 1
  }

  /** `s.replace(c, "")` with a one-character pattern: only the first occurrence goes. */
  function RemoveFirst(s: string, c: char): (r: string)
    ensures c !in s ==> r == s
    ensures c in s ==> |r| == |s| - 1 && multiset(r) == multiset(s) - multiset{c}
    ensures |s| > 0 && s[0] == c ==> r == s[1..]
    ensures c in s ==> exists k :: 0 <= k < |s| && s[k] == c && c !in s[..k] && r == s[..k] + s[k + 1..]
  {
    var k := FirstIndex(s, c);
    if k < 0 then s
    else
      assert s == s[..k] + [s[k]] + s[k + 1..];
      assert c !in s[..k] by {
        forall j | 0 <= j < k ensures s[..k][j] != c {
        }
      }
      s[..k] + s[k + 1..]
  }

  /**
   * `document.getElementById(id)` finds an element: `present` holds the ids of
   * the elements in the document, and the empty id never matches.
   */
  predicate ElementExists(present: set<string>, id: string) {
    id != "" && id in present
  }

  // ---------------------------------------------------------------------------
  // Observer entries and their stable ordering by top edge
  // ---------------------------------------------------------------------------

  /** One record of an intersection-observer report; `top` is the target's top edge. */
  datatype ObserverEntry = ObserverEntry(id: string, isIntersecting: bool, top: int)

  /** `entries.filter(entry => entry.isIntersecting)`. */
  function Visible(entries: seq<ObserverEntry>): (v: seq<ObserverEntry>)
    ensures |v| <= |entries|
    ensures forall e :: e in v ==> e in entries && e.isIntersecting
    ensures v == [] <==> forall j :: 0 <= j < |entries| ==> !entries[j].isIntersecting
    ensures forall j :: 0 <= j < |entries| && entries[j].isIntersecting ==> entries[j] in v
  {
    if entries == [] then []
    else
      var rest := Visible(entries[1..]);
      assert forall j :: 0 <= j < |entries| - 1 ==> entries[1..][j] == entries[j + 1];
      (if entries[0].isIntersecting then [entries[0]] else []) + rest
  }

  /** The filter keeps report order: filtering a concatenation concatenates the filtered parts. */
  lemma {:induction false} VisibleConcat(a: seq<ObserverEntry>, b: seq<ObserverEntry>)
    ensures Visible(a + b) == Visible(a) + Visible(b)
  {
    if a == [] {
      assert a + b == b;
    } else {
      assert (a + b)[0] == a[0];
      assert (a + b)[1..] == a[1..] + b;
      VisibleConcat(a[1..], b);
    }
  }

  predicate SortedByTop(s: seq<ObserverEntry>) {
    forall i, j :: 0 <= i < j < |s| ==> s[i].top <= s[j].top
  }

  /** Inserts `x` before the first element whose top is not smaller, so equal tops keep `x` first. */
  function InsertByTop(x: ObserverEntry, s: seq<ObserverEntry>): (r: seq<ObserverEntry>)
    requires SortedByTop(s)
    ensures |r| == |s| + 1
    ensures SortedByTop(r)
    ensures multiset(r) == multiset(s) + multiset{x}
    ensures r[0] == if s == [] || x.top <= s[0].top then x else s[0]
  {
    if s == [] || x.top <= s[0].top then [x] + s
    else
      assert s == [s[0]] + s[1..];
      var rest := InsertByTop(x, s[1..]);
      assert forall j :: 0 <= j < |rest| ==> rest[0].top <= rest[j].top;
      [s[0]] + rest
  }

  /**
   * `visible.sort((a, b) => a.top - b.top)`, as an insertion sort. Elements
   * are inserted from the back, each before its equals, as a stable sort
   * orders them; what is proved is that the result is a sorted permutation and
   * (in `SortedVisibleHead`) which entry comes first, not stability in full.
   */
  function SortByTop(s: seq<ObserverEntry>): (r: seq<ObserverEntry>)
    ensures |r| == |s|
    ensures SortedByTop(r)
    ensures multiset(r) == multiset(s)
  {
    if s == [] then []
    else
      assert s == [s[0]] + s[1..];
      InsertByTop(s[0], SortByTop(s[1..]))
  }

  /**
   * `k` is the entry the observer picks: intersecting, with the smallest top
   * of all intersecting entries, and earlier than every other such entry.
   */
  predicate IsChosen(entries: seq<ObserverEntry>, k: int) {
    0 <= k < |entries| && entries[k].isIntersecting &&
    (forall j :: 0 <= j < |entries| && entries[j].isIntersecting ==> entries[k].top <= entries[j].top) &&
    (forall j :: 0 <= j < k && entries[j].isIntersecting ==> entries[k].top < entries[j].top)
  }

  /** The reference choice, computed directly on the report: none when nothing intersects. */
  function PickIndex(entries: seq<ObserverEntry>): (r: Option<nat>)
    ensures r.None? <==> forall j :: 0 <= j < |entries| ==> !entries[j].isIntersecting
    ensures r.Some? ==> IsChosen(entries, r.value)
  {
    if entries == [] then None
    else
      var rest := PickIndex(entries[1..]);
      assert forall j :: 0 <= j < |entries| - 1 ==> entries[1..][j] == entries[j + 1];
      if !entries[0].isIntersecting then
        if rest.None? then None else Some(rest.value + 1)
      else if rest.None? || entries[0].top <= entries[rest.value + 1].top then Some(0)
      else Some(rest.value + 1)
  }

  /** The choice is unique: at most one index satisfies `IsChosen`. */
  lemma ChosenUnique(entries: seq<ObserverEntry>, k1: int, k2: int)
    requires IsChosen(entries, k1) && IsChosen(entries, k2)
    ensures k1 == k2
  {
  }

  lemma SortCons(x: ObserverEntry, v: seq<ObserverEntry>)
    ensures SortByTop([x] + v) == InsertByTop(x, SortByTop(v))
  {
    assert ([x] + v)[1..] == v;
  }

  /** The head of the stably sorted visible entries is the reference choice. */
  lemma {:induction false} SortedVisibleHead(entries: seq<ObserverEntry>)
    ensures Visible(entries) != [] <==> PickIndex(entries).Some?
    ensures Visible(entries) != [] ==> SortByTop(Visible(entries))[0] == entries[PickIndex(entries).value]
  {
    if entries != [] {
      var tail := entries[1..];
      SortedVisibleHead(tail);
      if entries[0].isIntersecting {
        IntersectingHead(entries);
      } else {
        assert Visible(entries) == Visible(tail);
      }
    }
  }

  /** The inductive step of `SortedVisibleHead` when the first entry intersects. */
  lemma IntersectingHead(entries: seq<ObserverEntry>)
    requires entries != [] && entries[0].isIntersecting
    requires Visible(entries[1..]) != [] <==> PickIndex(entries[1..]).Some?
    requires Visible(entries[1..]) != [] ==> SortByTop(Visible(entries[1..]))[0] == entries[1..][PickIndex(entries[1..]).value]
    ensures PickIndex(entries).Some?
    ensures SortByTop(Visible(entries))[0] == entries[PickIndex(entries).value]
  {
    var tail := entries[1..];
    var vt := Visible(tail);
    var st := SortByTop(vt);
    var rest := PickIndex(tail);
    assert Visible(entries) == [entries[0]] + vt;
    SortCons(entries[0], vt);
    var head := SortByTop(Visible(entries))[0];
    assert head == if st == [] || entries[0].top <= st[0].top then entries[0] else st[0];
    if rest.None? {
      assert st == [];
      assert PickIndex(entries) == Some(0);
    } else {
      assert st[0] == entries[rest.value + 1];
      if entries[0].top <= entries[rest.value + 1].top {
        assert PickIndex(entries) == Some(0);
      } else {
        assert PickIndex(entries) == Some(rest.value + 1);
      }
    }
  }

  // ---------------------------------------------------------------------------
  // The header's state and its transitions
  // ---------------------------------------------------------------------------

  /**
   * `activeTab` is the highlighted entry ("" for none), `scrolled` the header
   * chrome flag, `menuOpen` the mobile menu, and `observing` the ids the
   * intersection observer currently watches ([] when there is no observer).
   */
  datatype NavState = NavState(activeTab: string, scrolled: bool, menuOpen: bool, observing: seq<string>)

  /** The scroll offset past which the header counts as scrolled. */
  const ScrollThreshold: int := 20

  /** The state before any effect has run: nothing highlighted, not scrolled, menu closed. */
  function Initial(): (s: NavState)
    ensures s.activeTab == "" && !s.scrolled && !s.menuOpen && s.observing == []
    ensures forall i :: 0 <= i < |NavItems| ==> s.activeTab != NavItems[i].id
  {
    NavState("", false, false, [])
  }

  /** A scroll event: only the `scrolled` flag follows the offset. */
  function Scroll(s: NavState, scrollY: int): (r: NavState)
    ensures r.scrolled <==> scrollY > ScrollThreshold
    ensures r.activeTab == s.activeTab && r.menuOpen == s.menuOpen && r.observing == s.observing
  {
    s.(scrolled := scrollY > ScrollThreshold)
  }

  /** The route effect: a case-insensitive match on the two dedicated pages selects their entry. */
  function RouteTab(s: NavState, pathname: string): (r: NavState)
    ensures ToLower(pathname) == "/contact" ==> r == s.(activeTab := "contact")
    ensures ToLower(pathname) == "/projects" ==> r == s.(activeTab := "projects")
    ensures ToLower(pathname) != "/contact" && ToLower(pathname) != "/projects" ==> r == s
  {
    var lower := ToLower(pathname);
    if lower == "/contact" then s.(activeTab := "contact")
    else if lower == "/projects" then s.(activeTab := "projects")
    else s
  }

  /** The ids among `ids` whose element exists, in order. */
  function FilterPresent(ids: seq<string>, present: set<string>): (r: seq<string>)
    ensures |r| <= |ids|
    ensures forall id :: id in r <==> id in ids && ElementExists(present, id)
  {
    if ids == [] then []
    else
      var rest := FilterPresent(ids[1..], present);
      assert forall id :: id in ids <==> id == ids[0] || id in ids[1..];
      (if ElementExists(present, ids[0]) then [ids[0]] else []) + rest
  }

  /**
   * The sections the scroll-tracking effect observes: the section entries
   * whose element exists, but only on the exact pathname "/" (this comparison
   * is not lower-cased). An empty result means no observer is installed.
   */
  function TrackedSections(pathname: string, present: set<string>): (r: seq<string>)
    ensures pathname != "/" ==> r == []
    ensures forall id :: id in r <==> pathname == "/" && id in SectionIds && ElementExists(present, id)
  {
    if pathname != "/" then [] else FilterPresent(SectionIds, present)
  }

  /** On the home page, the observed ids are about, skills, projects in that order, each when present. */
  lemma TrackedSectionsOnHome(present: set<string>)
    ensures TrackedSections("/", present) ==
      (if ElementExists(present, "about") then ["about"] else []) +
      (if ElementExists(present, "skills") then ["skills"] else []) +
      (if ElementExists(present, "projects") then ["projects"] else [])
  {
    SectionIdsValue();
    FilterPresentThree("about", "skills", "projects", present);
  }

  /** The presence filter on a three-element list, unrolled. */
  lemma FilterPresentThree(a: string, b: string, c: string, present: set<string>)
    ensures FilterPresent([a, b, c], present) ==
      (if ElementExists(present, a) then [a] else []) +
      (if ElementExists(present, b) then [b] else []) +
      (if ElementExists(present, c) then [c] else [])
  {
    var pc := if ElementExists(present, c) then [c] else [];
    var pb := if ElementExists(present, b) then [b] else [];
    assert [c][1..] == [];
    assert FilterPresent([c], present) == pc + [];
    assert [b, c][1..] == [c];
    assert FilterPresent([b, c], present) == pb + pc;
    assert [a, b, c][1..] == [b, c];
  }

  /** The scroll-tracking effect: the previous observer is disconnected and a new one observes the tracked sections. */
  function InstallTracking(s: NavState, pathname: string, present: set<string>): (r: NavState)
    ensures r.observing == TrackedSections(pathname, present)
    ensures r.activeTab == s.activeTab && r.scrolled == s.scrolled && r.menuOpen == s.menuOpen
  {
    s.(observing := TrackedSections(pathname, present))
  }

  /** A pathname change runs the route effect and then the scroll-tracking effect. */
  function PathnameChanged(s: NavState, pathname: string, present: set<string>): (r: NavState)
    ensures ToLower(pathname) == "/contact" ==> r.activeTab == "contact"
    ensures ToLower(pathname) == "/projects" ==> r.activeTab == "projects"
    ensures ToLower(pathname) != "/contact" && ToLower(pathname) != "/projects" ==> r.activeTab == s.activeTab
    ensures r.observing == TrackedSections(pathname, present)
    ensures r.scrolled == s.scrolled && r.menuOpen == s.menuOpen
  {
    InstallTracking(RouteTab(s, pathname), pathname, present)
  }

  /** On the contact page its entry is highlighted and no observer can move the highlight away. */
  lemma ContactRoutePrecedence(s: NavState, pathname: string, present: set<string>)
    requires ToLower(pathname) == "/contact"
    ensures PathnameChanged(s, pathname, present).activeTab == "contact"
    ensures PathnameChanged(s, pathname, present).observing == []
  {
    assert ToLower("/") == "/";
  }

  /** The projects page is registered as "/Projects"; the lower-cased comparison still highlights its entry. */
  lemma RegisteredProjectsRoute(s: NavState, present: set<string>)
    ensures PathnameChanged(s, "/Projects", present).activeTab == "projects"
    ensures PathnameChanged(s, "/Projects", present).observing == []
  {
    LowerProjects();
  }

  lemma LowerProjects()
    ensures ToLower("/Projects") == "/projects"
  {
    var r := ToLower("/Projects");
    forall i | 0 <= i < 9 ensures r[i] == "/projects"[i] {
      assert r[i] == LowerChar("/Projects"[i]);
    }
  }

  /** The anchor a hash names, when its element exists; an empty hash names none. */
  function HashTarget(hash: string, present: set<string>): (r: Option<string>)
    ensures hash == "" ==> r == None
    ensures r.Some? ==> r.value == RemoveFirst(hash, '#') && ElementExists(present, r.value)
    ensures hash != "" && ElementExists(present, RemoveFirst(hash, '#')) ==> r.Some?
  {
    if hash == "" then None
    else
      var id := RemoveFirst(hash, '#');
      if ElementExists(present, id) then Some(id) else None
  }

  /** The hash effect: the named anchor is highlighted only when it exists. */
  function HashChanged(s: NavState, hash: string, present: set<string>): (r: NavState)
    ensures HashTarget(hash, present).None? ==> r == s
    ensures HashTarget(hash, present).Some? ==> r == s.(activeTab := HashTarget(hash, present).value)
  {
    match HashTarget(hash, present)
    case None => s
    case Some(id) => s.(activeTab := id)
  }

  /** A hash "#x" selects x exactly when an element with id x exists, and changes nothing else. */
  lemma HashSelectsExistingAnchor(s: NavState, x: string, present: set<string>)
    ensures HashChanged(s, "#" + x, present) == if ElementExists(present, x) then s.(activeTab := x) else s
  {
    assert ("#" + x)[1..] == x;
  }

  /**
   * The observer callback: nothing changes when no entry intersects;
   * otherwise the chosen entry is highlighted.
   */
  function Observe(s: NavState, entries: seq<ObserverEntry>): (r: NavState)
    ensures (forall j :: 0 <= j < |entries| ==> !entries[j].isIntersecting) ==> r == s
    ensures (exists j :: 0 <= j < |entries| && entries[j].isIntersecting) ==>
      exists k :: IsChosen(entries, k) && r == s.(activeTab := entries[k].id)
  {
    var visible := Visible(entries);
    if visible == [] then s
    else
      SortedVisibleHead(entries);
      s.(activeTab := SortByTop(visible)[0].id)
  }

  /** A click selects the entry and closes the mobile menu, whatever the route or the document. */
  function Click(s: NavState, id: string): (r: NavState)
    ensures r.activeTab == id && !r.menuOpen
    ensures r.scrolled == s.scrolled && r.observing == s.observing
  {
    s.(activeTab := id, menuOpen := false)
  }

  /** Whether a click on (`id`, `kind`) scrolls: a section entry, on the home page, whose element exists. */
  function ClickScrolls(id: string, kind: NavKind, pathname: string, present: set<string>): (r: bool)
    ensures kind == Route ==> !r
    ensures r ==> kind == Section && pathname == "/" && ElementExists(present, id)
    ensures kind == Section && id in TrackedSections(pathname, present) ==> r
    ensures r && id in SectionIds ==> id in TrackedSections(pathname, present)
  {
    kind == Section && pathname == "/" && ElementExists(present, id)
  }

  /** The logo is the route-kind entry "home": it selects "home" but never scrolls. */
  lemma LogoNeverScrolls(s: NavState, pathname: string, present: set<string>)
    ensures !ClickScrolls("home", Route, pathname, present)
    ensures Click(s, "home").activeTab == "home"
    ensures forall i :: 0 <= i < |NavItems| ==> Click(s, "home").activeTab != NavItems[i].id
  {
  }

  /** A click on a section entry whose anchor is missing still selects that entry. */
  lemma MissingAnchorStillSelects(s: NavState, id: string, pathname: string, present: set<string>)
    requires !ElementExists(present, id)
    ensures !ClickScrolls(id, Section, pathname, present)
    ensures Click(s, id).activeTab == id
  {
  }

  function ToggleMenu(s: NavState): (r: NavState)
    ensures r.menuOpen == !s.menuOpen
    ensures r.activeTab == s.activeTab && r.scrolled == s.scrolled && r.observing == s.observing
  {
    s.(menuOpen := !s.menuOpen)
  }

  function CloseMenu(s: NavState): (r: NavState)
    ensures !r.menuOpen
    ensures r.activeTab == s.activeTab && r.scrolled == s.scrolled && r.observing == s.observing
  {
    s.(menuOpen := false)
  }

  /**
   * When one navigation changes both pathname and hash, the effects run in
   * declaration order (route, hash, tracking); the result is the same as the
   * pathname effects followed by the hash effect.
   */
  lemma HashAndPathnameCommute(s: NavState, pathname: string, hash: string, present: set<string>)
    ensures InstallTracking(HashChanged(RouteTab(s, pathname), hash, present), pathname, present) ==
            HashChanged(PathnameChanged(s, pathname, present), hash, present)
  {
  }

  /** Each handler recomputes from its inputs: running it twice is the same as once. */
  lemma HandlersIdempotent(s: NavState, scrollY: int, pathname: string, hash: string,
                           present: set<string>, entries: seq<ObserverEntry>)
    ensures Scroll(Scroll(s, scrollY), scrollY) == Scroll(s, scrollY)
    ensures PathnameChanged(PathnameChanged(s, pathname, present), pathname, present) == PathnameChanged(s, pathname, present)
    ensures HashChanged(HashChanged(s, hash, present), hash, present) == HashChanged(s, hash, present)
    ensures Observe(Observe(s, entries), entries) == Observe(s, entries)
  {
  }

  /**
   * Every route renders its own header, so navigating to another route mounts
   * a fresh one: its effects run once, in declaration order (route, hash,
   * tracking), on the initial state. No scroll event has fired yet.
   */
  function Mount(pathname: string, hash: string, present: set<string>): (r: NavState)
    ensures r == InstallTracking(HashChanged(RouteTab(Initial(), pathname), hash, present), pathname, present)
    ensures !r.scrolled && !r.menuOpen
  {
    HashAndPathnameCommute(Initial(), pathname, hash, present);
    HashChanged(PathnameChanged(Initial(), pathname, present), hash, present)
  }

  /**
   * A freshly mounted header on the contact page highlights contact unless the
   * hash names an existing element; on "/" with no hash it highlights nothing
   * and observes the present sections.
   */
  lemma MountHighlights(pathname: string, hash: string, present: set<string>)
    ensures ToLower(pathname) == "/contact" && HashTarget(hash, present).None? ==>
      Mount(pathname, hash, present).activeTab == "contact" && Mount(pathname, hash, present).observing == []
    ensures Mount("/", "", present) == NavState("", false, false, TrackedSections("/", present))
  {
    assert ToLower("/") == "/";
  }

  /**
   * Going back from the contact page to the home page does not reach the
   * contact page's header: a live header would keep "contact" highlighted,
   * while the freshly mounted one highlights nothing.
   */
  lemma ReturningHomeRemounts(present: set<string>)
    ensures PathnameChanged(Mount("/contact", "", present), "/", present).activeTab == "contact"
    ensures Mount("/", "", present).activeTab == ""
  {
    assert ToLower("/") == "/";
    ContactLower();
  }

  lemma ContactLower()
    ensures ToLower("/contact") == "/contact"
  {
    var r := ToLower("/contact");
    forall i | 0 <= i < 8 ensures r[i] == "/contact"[i] {
      assert r[i] == LowerChar("/contact"[i]);
    }
  }

  /** While the observer watches only section ids, it can only highlight a section entry. */
  lemma ObserverSelectsSection(s: NavState, entries: seq<ObserverEntry>)
    requires forall j :: 0 <= j < |entries| ==> entries[j].id in SectionIds
    ensures Observe(s, entries).activeTab == s.activeTab || Observe(s, entries).activeTab in SectionIds
  {
  }

  // ---------------------------------------------------------------------------
  // The component
  // ---------------------------------------------------------------------------

  /**
   * The header component. React invokes the pathname handler on mount and
   * whenever the pathname changes while this header stays mounted, the hash
   * handler on mount and on every hash change, and the intersection handler
   * whenever the installed observer reports. Each route renders its own
   * header, so a navigation to another route mounts a fresh one (`Mount`); a
   * live header's pathname handler sees only paths the router sends to the
   * same page, such as case variants.
   */
  class Header {
    var activeTab: string
    var scrolled: bool
    var isMobileMenuOpen: bool
    /** The ids the intersection observer watches; [] when no observer is installed. */
    var observing: seq<string>

    function State(): NavState
      reads this
    {
      NavState(activeTab, scrolled, isMobileMenuOpen, observing)
    }

    constructor ()
      ensures State() == Initial()
    {
      activeTab := "";
      scrolled := false;
      isMobileMenuOpen := false;
      observing := [];
    }

    method HandleScroll(scrollY: int)
      modifies this
      ensures State() == Scroll(old(State()), scrollY)
    {
      scrolled := scrollY > ScrollThreshold;
    }

    /** The route effect, then the scroll-tracking effect (its previous observer is disconnected first). */
    method OnPathnameChange(pathname: string, present: set<string>)
      modifies this
      ensures State() == PathnameChanged(old(State()), pathname, present)
    {
      var lower := ToLower(pathname);
      if lower == "/contact" {
        activeTab := "contact";
      } else if lower == "/projects" {
        activeTab := "projects";
      }

      observing := [];
      if pathname != "/" {
        return;
      }
      var sections := FilterPresent(SectionIds, present);
      if |sections| == 0 {
        return;
      }
      ghost var routed := State();
      var i := 0;
      while i < |sections|
        invariant 0 <= i <= |sections|
        invariant observing == sections[..i]
        invariant activeTab == routed.activeTab && scrolled == routed.scrolled && isMobileMenuOpen == routed.menuOpen
      {
        observing := observing + [sections[i]];
        i := i + 1;
      }
      assert sections[..i] == sections;
    }

    /** The hash effect; `scrollTo` reports whether the anchor is scrolled into view. */
    method OnHashChange(hash: string, present: set<string>) returns (scrollTo: bool)
      modifies this
      ensures State() == HashChanged(old(State()), hash, present)
      ensures scrollTo <==> HashTarget(hash, present).Some?
    {
      if hash == "" {
        return false;
      }
      var id := RemoveFirst(hash, '#');
      scrollTo := ElementExists(present, id);
      if scrollTo {
        activeTab := id;
      }
    }

    /** The intersection observer's callback; it only reports on the targets it observes. */
    method OnIntersection(entries: seq<ObserverEntry>)
      requires forall j :: 0 <= j < |entries| ==> entries[j].id in observing
      modifies this
      ensures State() == Observe(old(State()), entries)
    {
      var visible := Visible(entries);
      if |visible| == 0 {
        return;
      }
      var sorted := SortByTop(visible);
      activeTab := sorted[0].id;
    }

    /** A click on a navigation entry; `scrollTo` reports whether its anchor is scrolled into view. */
    method HandleClick(id: string, kind: NavKind, pathname: string, present: set<string>) returns (scrollTo: bool)
      modifies this
      ensures State() == Click(old(State()), id)
      ensures scrollTo == ClickScrolls(id, kind, pathname, present)
    {
      activeTab := id;
      isMobileMenuOpen := false;
      if kind != Section || pathname != "/" {
        return false;
      }
      scrollTo := ElementExists(present, id);
    }

    /** The logo link: a click on "home" with the default kind, which is a route. */
    method ClickLogo(pathname: string, present: set<string>) returns (scrollTo: bool)
      modifies this
      ensures State() == Click(old(State()), "home")
      ensures !scrollTo
    {
      scrollTo := HandleClick("home", Route, pathname, present);
    }

    /** The menu button. */
    method ToggleMobileMenu()
      modifies this
      ensures State() == ToggleMenu(old(State()))
    {
      isMobileMenuOpen := !isMobileMenuOpen;
    }

    /** A click on the mobile menu's overlay. */
    method CloseMobileMenu()
      modifies this
      ensures State() == CloseMenu(old(State()))
    {
      isMobileMenuOpen := false;
    }
  }
}
