/** `src/components/KeyboardShortcuts.tsx`: the shortcut reference dialog's
    grouping by category, and the `useKeyboardShortcuts` key handler. */
module KeyboardShortcuts {
  import opened Text
  import opened Seqs

  datatype Shortcut = Shortcut(keys: seq<string>, description: string, category: string)

  const Shortcuts: seq<Shortcut> := [
    Shortcut(["Ctrl", "N"], "New Session", "Session"),
    Shortcut(["Ctrl", "S"], "Save Session", "Session"),
    Shortcut(["Ctrl", "O"], "Open Sessions", "Session"),
    Shortcut(["Ctrl", "E"], "Export Session", "Session"),
    Shortcut(["Ctrl", "P"], "Pause/Resume Session", "Session"),
    Shortcut(["Ctrl", "1"], "Focus Model A", "Navigation"),
    Shortcut(["Ctrl", "2"], "Focus Model B", "Navigation"),
    Shortcut(["Ctrl", "3"], "Focus Overseer Panel", "Navigation"),
    Shortcut(["Tab"], "Next Panel", "Navigation"),
    Shortcut(["Shift", "Tab"], "Previous Panel", "Navigation"),
    Shortcut(["Ctrl", "Enter"], "Send Message", "Chat"),
    Shortcut(["Ctrl", "I"], "Inject Note", "Chat"),
    Shortcut(["Ctrl", "R"], "Regenerate Response", "Chat"),
    Shortcut(["Ctrl", "C"], "Copy Last Response", "Chat"),
    Shortcut(["Ctrl", ","], "Open Settings", "Interface"),
    Shortcut(["Ctrl", "/"], "Show Shortcuts", "Interface"),
    Shortcut(["Ctrl", "K"], "Command Palette", "Interface"),
    Shortcut(["F11"], "Toggle Fullscreen", "Interface"),
    Shortcut(["Escape"], "Close Modal/Cancel", "Interface")
  ]

  function CategoryOf(s: Shortcut): string {
    s.category
  }

  /** `shortcuts.map(s => s.category)`. */
  function CategoryColumn(shortcuts: seq<Shortcut>): (r: seq<string>)
    ensures |r| == |shortcuts|
    ensures forall i :: 0 <= i < |r| ==> r[i] == shortcuts[i].category
  {
    seq(|shortcuts|, i requires 0 <= i < |shortcuts| => shortcuts[i].category)
  }

  /** `Array.from(new Set(shortcuts.map(s => s.category)))`: every category the
      list uses, each once. */
  function Categories(shortcuts: seq<Shortcut>): (r: seq<string>)
    ensures NoDuplicates(r)
    ensures forall c :: c in r <==> c in CategoryColumn(shortcuts)
  {
    Dedup(CategoryColumn(shortcuts))
  }

  const Session := "Session"
  const Navigation := "Navigation"
  const Chat := "Chat"
  const Interface := "Interface"

  // The category column, as the runs the list is written in.
  const SessionRows: seq<string> := [Session] + seq(4, _ => Session)
  const UpToNavigation: seq<string> := SessionRows + [Navigation] + seq(4, _ => Navigation)
  const UpToChat: seq<string> := UpToNavigation + [Chat] + seq(3, _ => Chat)

  lemma CategoryRuns()
    ensures CategoryColumn(Shortcuts) == UpToChat + [Interface] + seq(4, _ => Interface)
  {
  }

  lemma DedupSessionRows()
    ensures Dedup(SessionRows) == [Session]
  {
    DedupSnoc([], Session);
    assert [] + [Session] == [Session];
    DedupRun([Session], Session, 4);
  }

  lemma DedupUpToNavigation()
    ensures Dedup(UpToNavigation) == [Session, Navigation]
  {
    DedupSessionRows();
    assert Navigation !in SessionRows by {
      assert forall x :: x in SessionRows ==> x == Session;
    }
    DedupSnoc(SessionRows, Navigation);
    DedupRun(SessionRows + [Navigation], Navigation, 4);
  }

  lemma DedupUpToChat()
    ensures Dedup(UpToChat) == [Session, Navigation, Chat]
  {
    DedupUpToNavigation();
    assert Chat !in UpToNavigation by {
      assert forall x :: x in UpToNavigation ==> x == Session || x == Navigation;
    }
    DedupSnoc(UpToNavigation, Chat);
    DedupRun(UpToNavigation + [Chat], Chat, 3);
  }

  /** The dialog's four headings, in this order. */
  lemma CategoriesOfShortcuts()
    ensures Categories(Shortcuts) == [Session, Navigation, Chat, Interface]
  {
    CategoryRuns();
    DedupUpToChat();
    assert Interface !in UpToChat by {
      assert forall x :: x in UpToChat ==> x == Session || x == Navigation || x == Chat;
    }
    DedupSnoc(UpToChat, Interface);
    DedupRun(UpToChat + [Interface], Interface, 4);
  }

  /** Each heading once, in the order the list first uses it. */
  lemma CategoriesInFirstUseOrder(shortcuts: seq<Shortcut>, i: nat, j: nat)
    requires i < j < |Categories(shortcuts)|
    ensures NoDuplicates(Categories(shortcuts))
    ensures IndexOf(CategoryColumn(shortcuts), Categories(shortcuts)[i])
            < IndexOf(CategoryColumn(shortcuts), Categories(shortcuts)[j])
  {
    DedupFirstOccurrenceOrder(CategoryColumn(shortcuts), i, j);
  }

  /** The shortcuts listed under one heading. */
  function Section(shortcuts: seq<Shortcut>, category: string): (r: seq<Shortcut>)
    ensures IsSubsequence(r, shortcuts)
    ensures forall i :: 0 <= i < |r| ==> r[i].category == category
  {
    var r := Filter(shortcuts, (s: Shortcut) => s.category == category);
    FilterIsSubsequence(shortcuts, (s: Shortcut) => s.category == category);
    forall i | 0 <= i < |r| ensures r[i].category == category {
      FilterMembership(shortcuts, (s: Shortcut) => s.category == category, r[i]);
    }
    r
  }

  /** A section holds every shortcut of its category. */
  lemma SectionComplete(shortcuts: seq<Shortcut>, category: string, s: Shortcut)
    ensures s in Section(shortcuts, category) <==> s in shortcuts && s.category == category
  {
    FilterMembership(shortcuts, (x: Shortcut) => x.category == category, s);
  }

  /** `category !== categories[categories.length - 1]`. */
  predicate HasSeparator(categories: seq<string>, category: string)
    requires |categories| > 0
  {
    category != categories[|categories| - 1]
  }

  /** A separator follows every heading except the last one. */
  lemma SeparatorAllButLast(shortcuts: seq<Shortcut>, i: nat)
    requires i < |Categories(shortcuts)|
    ensures HasSeparator(Categories(shortcuts), Categories(shortcuts)[i]) <==> i < |Categories(shortcuts)| - 1
  {
  }

  // ---- The key handler ---------------------------------------------------------

  datatype KeyEvent = KeyEvent(ctrlKey: bool, metaKey: bool, shiftKey: bool, altKey: bool, key: string)

  /** The shortcut string the handler builds: the lower-cased key, behind a
      modifier prefix exactly when a modifier is held. */
  function ShortcutString(e: KeyEvent): (r: string)
    ensures r == Lower(e.key) <==> Unmodified(e)
  {
    (if e.ctrlKey || e.metaKey then "ctrl+" else "")
    + (if e.shiftKey then "shift+" else "")
    + (if e.altKey then "alt+" else "")
    + Lower(e.key)
  }

  /** What a shortcut string says: the modifier flags and the key. */
  datatype Chord = Chord(modifier: bool, shift: bool, alt: bool, key: string)

  function StripPrefix(p: string, s: string): (bool, string) {
    if p <= s then (true, s[|p|..]) else (false, s)
  }

  /** Reading a shortcut string back. */
  function DecodeShortcut(s: string): Chord {
    var (m, s1) := StripPrefix("ctrl+", s);
    var (sh, s2) := StripPrefix("shift+", s1);
    var (a, s3) := StripPrefix("alt+", s2);
    Chord(m, sh, a, s3)
  }

  /** A key name that does not itself read as a modifier prefix. */
  predicate PlainKey(k: string) {
    !("ctrl+" <= k) && !("shift+" <= k) && !("alt+" <= k)
  }

  /** The modifiers are written in a fixed order, so the string determines
      them and the lower-cased key. */
  lemma ShortcutRoundTrip(e: KeyEvent)
    requires PlainKey(Lower(e.key))
    ensures DecodeShortcut(ShortcutString(e)) == Chord(e.ctrlKey || e.metaKey, e.shiftKey, e.altKey, Lower(e.key))
  {
    var k := Lower(e.key);
    var a := if e.altKey then "alt+" else "";
    var sh := if e.shiftKey then "shift+" else "";
    var m := if e.ctrlKey || e.metaKey then "ctrl+" else "";
    assert ShortcutString(e) == m + (sh + (a + k));
    PrefixStrip("alt+", e.altKey, k);
    assert !("shift+" <= a + k) by {
      if e.altKey { assert (a + k)[0] == 'a'; }
    }
    PrefixStrip("shift+", e.shiftKey, a + k);
    assert !("ctrl+" <= sh + (a + k)) by {
      if e.shiftKey { assert (sh + (a + k))[0] == 's'; }
      else if e.altKey { assert (sh + (a + k))[0] == 'a'; }
      else { assert sh + (a + k) == k; }
    }
    PrefixStrip("ctrl+", e.ctrlKey || e.metaKey, sh + (a + k));
  }

  lemma PrefixStrip(p: string, present: bool, rest: string)
    requires |p| > 0 && !(p <= rest)
    ensures StripPrefix(p, (if present then p else "") + rest) == (present, rest)
  {
    if present {
      assert (p + rest)[|p|..] == rest;
    } else {
      assert "" + rest == rest;
    }
  }

  /** Ctrl and Meta produce the same string. */
  lemma CtrlMetaAlike(e: KeyEvent)
    ensures ShortcutString(e.(ctrlKey := true, metaKey := false)) == ShortcutString(e.(ctrlKey := false, metaKey := true))
  {
  }

  predicate Unmodified(e: KeyEvent) {
    !(e.ctrlKey || e.metaKey) && !e.shiftKey && !e.altKey
  }

  /** The handlers one key event runs, in order: the one registered under the
      built string, then, for an unmodified key, the one under the lower-cased key. */
  function Dispatch(e: KeyEvent, handlers: set<string>): (r: seq<string>)
    ensures forall i :: 0 <= i < |r| ==> r[i] in handlers
    ensures |r| <= 2 && (!Unmodified(e) ==> |r| <= 1)
    ensures |r| == 0 <==> ShortcutString(e) !in handlers
  {
    (if ShortcutString(e) in handlers then [ShortcutString(e)] else [])
    + (if Unmodified(e) && Lower(e.key) in handlers then [Lower(e.key)] else [])
  }

  /** `useKeyboardShortcuts`'s `handleKeyDown`. `handlers` holds the registered
      names; `invoked` lists the handlers called, in order, and `prevented`
      says whether the default action was suppressed. */
  method HandleKeyDown(e: KeyEvent, handlers: set<string>) returns (invoked: seq<string>, prevented: bool)
    ensures invoked == Dispatch(e, handlers)
    ensures prevented <==> |invoked| > 0
  {
    var modifierKey := e.ctrlKey || e.metaKey;
    var shortcut := "";
    if modifierKey {
      shortcut := shortcut + "ctrl+";
    }
    if e.shiftKey {
      shortcut := shortcut + "shift+";
    }
    if e.altKey {
      shortcut := shortcut + "alt+";
    }
    shortcut := shortcut + Lower(e.key);
    assert shortcut == ShortcutString(e);
    invoked, prevented := [], false;
    if shortcut in handlers {
      prevented := true;
      invoked := invoked + [shortcut];
    }
    if !modifierKey && !e.shiftKey && !e.altKey {
      if Lower(e.key) in handlers {
        prevented := true;
        invoked := invoked + [Lower(e.key)];
      }
    }
  }

  /** Only registered handlers run. */
  lemma DispatchRegistered(e: KeyEvent, handlers: set<string>)
    ensures forall i :: 0 <= i < |Dispatch(e, handlers)| ==> Dispatch(e, handlers)[i] in handlers
  {
  }

  /** Without modifiers the built string is the lower-cased key itself, so a
      registered handler for it runs twice; with a modifier at most one runs,
      the one under the built string. */
  lemma DispatchCount(e: KeyEvent, handlers: set<string>)
    ensures Unmodified(e) ==> (Dispatch(e, handlers) == if Lower(e.key) in handlers then [Lower(e.key), Lower(e.key)] else [])
    ensures !Unmodified(e) ==> (Dispatch(e, handlers) == if ShortcutString(e) in handlers then [ShortcutString(e)] else [])
  {
    if Unmodified(e) {
      assert ShortcutString(e) == Lower(e.key);
    }
  }

  /** Escape with an `escape` handler runs it twice; Meta+K reaches `ctrl+k`. */
  method DispatchExample()
  {
    var esc := KeyEvent(false, false, false, false, "Escape");
    assert Lower("Escape") == "escape";
    assert ShortcutString(esc) == "escape";
    var invoked, prevented := HandleKeyDown(esc, {"escape"});
    assert invoked == ["escape", "escape"] && prevented;
    var palette := KeyEvent(false, true, false, false, "K");
    assert Lower("K") == "k";
    assert ShortcutString(palette) == "ctrl+k";
    invoked, prevented := HandleKeyDown(palette, {"ctrl+k"});
    assert invoked == ["ctrl+k"];
  }
}
