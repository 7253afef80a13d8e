/**
 * The warning printed before a cleanup: "WARNING: ", the quoted categories
 * that will go, "will be removed. " and up to two notes, each ending a line.
 * `Decode` reads such a text back; `DecodeWarning` shows the text states
 * exactly the enabled categories, the scope of release cleanup and the notes
 * the plan calls for.
 */
module Warning {
  import opened Options

  const Prefix: string := "WARNING: "
  const ConfigItem: string := "\"Helm v2 Configuration\" "
  const AllReleasesItem: string := "\"Release Data\" "
  const NamedOpen: string := "\"Release '"
  const NamedClose: string := "' Data\" "
  const TillerItem: string := "\"Tiller\" "
  const RemovedLine: string := "will be removed. \n"
  const NoRestoreLine: string :=
    "This will clean up all releases managed by Helm v2. It will not be possible to restore them if you haven't made a backup of the releases.\n"
  const UnusableLine: string := "Helm v2 may not be usable afterwards.\n"

  predicate StartsWith(s: string, p: string) {
    |p| <= |s| && s[..|p|] == p
  }

  predicate EndsWith(s: string, t: string) {
    |t| <= |s| && s[|s| - |t|..] == t
  }

  function ReleaseItem(name: string): string {
    if name == "" then AllReleasesItem else NamedOpen + name + NamedClose
  }

  /** The text built with the message builder, one append per category or note. */
  function WarningMessage(o: CleanupOptions): string {
    Prefix + Items(o) + RemovedLine + Notes(o)
  }

  /** The quoted categories, in the order configuration, release, Tiller. */
  function Items(o: CleanupOptions): string {
    (if o.configCleanup then ConfigItem else "") +
    (if o.releaseCleanup then ReleaseItem(o.releaseName) else "") +
    (if o.tillerCleanup then TillerItem else "")
  }

  /** The closing notes: no restore for bulk release cleanup, unusable unless one release is named. */
  function Notes(o: CleanupOptions): string {
    NoteLines(o.releaseCleanup && o.releaseName == "", o.releaseName == "")
  }

  function NoteLines(noRestore: bool, unusable: bool): string {
    (if noRestore then NoRestoreLine else "") + (if unusable then UnusableLine else "")
  }

  lemma EmptyRight(a: string)
    ensures a + "" == a
  {
  }

  lemma Regroup(a: string, b: string, c: string, d: string)
    ensures a + b + c + d == a + (b + c + d)
  {
  }

  /** Builds the warning one piece at a time, as the command does with its string builder. */
  method BuildWarning(o: CleanupOptions) returns (message: string)
    ensures message == WarningMessage(o)
  {
    // the pieces written so far, one per category and note, "" for a skipped one
    ghost var config, release, tiller := "", "", "";
    message := Prefix;
    if o.configCleanup {
      message, config := message + ConfigItem, ConfigItem;
    } else {
      EmptyRight(message);
    }
    if o.releaseCleanup {
      if o.releaseName == "" {
        message, release := message + AllReleasesItem, AllReleasesItem;
      } else {
        message, release := message + (NamedOpen + o.releaseName + NamedClose), NamedOpen + o.releaseName + NamedClose;
      }
    } else {
      EmptyRight(message);
    }
    if o.tillerCleanup {
      message, tiller := message + TillerItem, TillerItem;
    } else {
      EmptyRight(message);
    }
    Regroup(Prefix, config, release, tiller);
    assert message == Prefix + Items(o);
    message := message + RemovedLine;
    ghost var head, noRestore, unusable := message, "", "";
    if o.releaseCleanup && o.releaseName == "" {
      message, noRestore := message + NoRestoreLine, NoRestoreLine;
    } else {
      EmptyRight(message);
    }
    if o.releaseName == "" {
      message, unusable := message + UnusableLine, UnusableLine;
    } else {
      EmptyRight(message);
    }
    Assoc(head, noRestore, unusable);
    assert message == head + Notes(o);
  }

  /** What release cleanup the warning announces. */
  datatype Scope = NoRelease | AllReleases | OneRelease(name: string)

  /** What a reader learns from a warning. */
  datatype Announcement = Announcement(
    configuration: bool, release: Scope, tiller: bool, noRestoreNote: bool, unusableNote: bool)

  /**
   * What the warning is meant to announce for `o`: each enabled category,
   * the release named if there is one, the no-restore note for bulk release
   * cleanup and the unusable note whenever no single release is targeted.
   */
  function Intended(o: CleanupOptions): Announcement {
    Announcement(
      o.configCleanup,
      if !o.releaseCleanup then NoRelease
      else if o.releaseName == "" then AllReleases
      else OneRelease(o.releaseName),
      o.tillerCleanup,
      o.releaseCleanup && o.releaseName == "",
      o.releaseName == "")
  }

  datatype Option<T> = None | Some(value: T)

  /** Splits off the trailing note lines, last one first. */
  function SplitNotes(body: string): (string, bool, bool) {
    var unusable := EndsWith(body, UnusableLine);
    var b1 := if unusable then body[..|body| - |UnusableLine|] else body;
    var noRestore := EndsWith(b1, NoRestoreLine);
    (if noRestore then b1[..|b1| - |NoRestoreLine|] else b1, noRestore, unusable)
  }

  /** Splits the category list into the configuration item, the release item and the Tiller item. */
  function SplitItems(items: string): (bool, string, bool) {
    var config := StartsWith(items, ConfigItem);
    var r1 := if config then items[|ConfigItem|..] else items;
    var tiller := EndsWith(r1, TillerItem);
    (config, if tiller then r1[..|r1| - |TillerItem|] else r1, tiller)
  }

  /** Reads the release item: none, all releases, or one named release. */
  function ReadScope(r: string): Option<Scope> {
    if r == "" then Some(NoRelease)
    else if r == AllReleasesItem then Some(AllReleases)
    else if |NamedOpen| + |NamedClose| <= |r| && StartsWith(r, NamedOpen) && EndsWith(r, NamedClose) then
      Some(OneRelease(r[|NamedOpen|..|r| - |NamedClose|]))
    else None
  }

  /** Reads a warning back: prefix, categories, "will be removed. ", then the notes. */
  function Decode(msg: string): Option<Announcement> {
    if !StartsWith(msg, Prefix) then None
    else
      var (b, noRestore, unusable) := SplitNotes(msg[|Prefix|..]);
      if !EndsWith(b, RemovedLine) then None
      else
        var (config, r, tiller) := SplitItems(b[..|b| - |RemovedLine|]);
        match ReadScope(r)
        case None => None
        case Some(scope) => Some(Announcement(config, scope, tiller, noRestore, unusable))
  }

  lemma Assoc(a: string, b: string, c: string)
    ensures a + (b + c) == a + b + c
  {
  }

  lemma StripSuffix(a: string, b: string)
    ensures EndsWith(a + b, b) && (a + b)[..|a + b| - |b|] == a
  {
    assert (a + b)[|a + b| - |b|..] == b;
  }

  lemma StripPrefix(a: string, b: string)
    ensures StartsWith(a + b, a) && (a + b)[|a|..] == b
  {
    assert (a + b)[..|a|] == a;
  }

  /** A text ending in a line that ends " \n" does not end in a note, which ends ".\n". */
  lemma NotBothEndings(a: string, line: string, note: string)
    requires |line| >= 2 && line[|line| - 2] == ' '
    requires |note| >= 2 && note[|note| - 2] == '.'
    ensures !EndsWith(a + line, note)
  {
    var s := a + line;
    assert s[|s| - 2] == line[|line| - 2];
    if |note| <= |s| {
      assert s[|s| - |note|..][|note| - 2] == s[|s| - 2];
    }
  }

  /** A text ending in a release item ("...a\" ") does not end in the Tiller item ("...r\" "). */
  lemma NotTillerEnding(s: string)
    requires |s| >= 3 && s[|s| - 3] == 'a'
    ensures !EndsWith(s, TillerItem)
  {
    if |TillerItem| <= |s| {
      assert s[|s| - |TillerItem|..][|TillerItem| - 3] == s[|s| - 3];
    }
  }

  /** Any text whose second character is not 'H' does not start with the configuration item. */
  lemma NotConfigStart(s: string)
    requires |s| >= 2 && s[1] != 'H'
    ensures !StartsWith(s, ConfigItem)
  {
    if |ConfigItem| <= |s| {
      assert s[..|ConfigItem|][1] == s[1];
    }
  }

  lemma SplitNotesNone(head: string)
    ensures SplitNotes(head + RemovedLine) == (head + RemovedLine, false, false)
  {
    NotBothEndings(head, RemovedLine, UnusableLine);
    NotBothEndings(head, RemovedLine, NoRestoreLine);
  }

  lemma SplitNotesUnusable(head: string)
    ensures SplitNotes(head + RemovedLine + UnusableLine) == (head + RemovedLine, false, true)
  {
    StripSuffix(head + RemovedLine, UnusableLine);
    NotBothEndings(head, RemovedLine, NoRestoreLine);
  }

  lemma SplitNotesBoth(head: string)
    ensures SplitNotes(head + RemovedLine + NoRestoreLine + UnusableLine) == (head + RemovedLine, true, true)
  {
    StripSuffix(head + RemovedLine + NoRestoreLine, UnusableLine);
    StripSuffix(head + RemovedLine, NoRestoreLine);
  }

  /** The notes after "will be removed. " are read back as they were written. */
  lemma SplitNotesOf(head: string, noRestore: bool, unusable: bool)
    requires noRestore ==> unusable
    ensures SplitNotes(head + RemovedLine + NoteLines(noRestore, unusable)) ==
      (head + RemovedLine, noRestore, unusable)
  {
    if !unusable {
      assert NoteLines(noRestore, unusable) == [];
      assert head + RemovedLine + [] == head + RemovedLine;
      SplitNotesNone(head);
    } else if !noRestore {
      assert NoteLines(noRestore, unusable) == UnusableLine;
      SplitNotesUnusable(head);
    } else {
      assert NoteLines(noRestore, unusable) == NoRestoreLine + UnusableLine;
      Assoc(head + RemovedLine, NoRestoreLine, UnusableLine);
      SplitNotesBoth(head);
    }
  }

  /** The release item starts like `"R` and ends like `a" `, unlike the other two items. */
  lemma ReleaseItemShape(name: string)
    ensures var r := ReleaseItem(name); |r| >= 3 && r[1] == 'R' && r[|r| - 3] == 'a'
  {
    if name != "" {
      var r := NamedOpen + name + NamedClose;
      assert r == NamedOpen + (name + NamedClose);
      assert r[1] == NamedOpen[1];
      assert r[|r| - 3] == NamedClose[|NamedClose| - 3];
    }
  }

  /** Reading the configuration item off the front of a category list. */
  lemma SplitConfig(config: bool, rest: string)
    requires rest == "" || (|rest| >= 2 && rest[1] != 'H')
    ensures var items := (if config then ConfigItem else "") + rest;
      StartsWith(items, ConfigItem) == config &&
      (if config then items[|ConfigItem|..] else items) == rest
  {
    if config {
      StripPrefix(ConfigItem, rest);
    } else {
      assert "" + rest == rest;
      if rest != "" {
        NotConfigStart(rest);
      }
    }
  }

  /** Reading the Tiller item off the end of a category list. */
  lemma SplitTiller(rel: string, tiller: bool)
    requires rel == "" || (|rel| >= 3 && rel[|rel| - 3] == 'a')
    ensures var r1 := rel + (if tiller then TillerItem else "");
      EndsWith(r1, TillerItem) == tiller &&
      (if tiller then r1[..|r1| - |TillerItem|] else r1) == rel
  {
    if tiller {
      StripSuffix(rel, TillerItem);
    } else {
      assert rel + "" == rel;
      if rel != "" {
        NotTillerEnding(rel);
      }
    }
  }

  /** A category list is read back into the flags and the release item it was built from. */
  lemma SplitItemsOf(config: bool, rel: string, tiller: bool)
    requires rel == "" || (|rel| >= 3 && rel[1] == 'R' && rel[|rel| - 3] == 'a')
    ensures SplitItems((if config then ConfigItem else "") + rel + (if tiller then TillerItem else "")) ==
      (config, rel, tiller)
  {
    var t := if tiller then TillerItem else "";
    var rest := rel + t;
    Assoc(if config then ConfigItem else "", rel, t);
    if rest != "" {
      assert |rest| >= 2 && rest[1] == (if rel != "" then rel[1] else TillerItem[1]);
    }
    SplitConfig(config, rest);
    SplitTiller(rel, tiller);
  }

  lemma ReadScopeOf(name: string)
    ensures ReadScope(ReleaseItem(name)) == Some(if name == "" then AllReleases else OneRelease(name))
  {
    if name != "" {
      var r := NamedOpen + name + NamedClose;
      assert r != AllReleasesItem by {
        assert r[9] == NamedOpen[9];
      }
      StripPrefix(NamedOpen, name + NamedClose);
      assert r == NamedOpen + (name + NamedClose);
      StripSuffix(NamedOpen + name, NamedClose);
      assert r[|NamedOpen|..|r| - |NamedClose|] == (NamedOpen + name)[|NamedOpen|..];
      StripPrefix(NamedOpen, name);
    }
  }

  /** A warning with category list `items` and the given notes reads back as written. */
  lemma DecodeOf(items: string, noRestore: bool, unusable: bool)
    requires noRestore ==> unusable
    ensures var msg := Prefix + items + RemovedLine + NoteLines(noRestore, unusable);
      StartsWith(msg, Prefix) &&
      SplitNotes(msg[|Prefix|..]) == (items + RemovedLine, noRestore, unusable) &&
      (EndsWith(msg, UnusableLine) <==> unusable)
  {
    var notes := NoteLines(noRestore, unusable);
    Assoc(Prefix, items + RemovedLine, notes);
    Assoc(Prefix, items, RemovedLine);
    StripPrefix(Prefix, items + RemovedLine + notes);
    SplitNotesOf(items, noRestore, unusable);
    SplitNotesOf(Prefix + items, noRestore, unusable);
  }

  /**
   * Every warning starts with "WARNING: " and ends with the note that Helm
   * v2 may not be usable exactly when no single release is named.
   */
  lemma WarningFrame(o: CleanupOptions)
    ensures StartsWith(WarningMessage(o), Prefix)
    ensures EndsWith(WarningMessage(o), UnusableLine) <==> o.releaseName == ""
  {
    DecodeOf(Items(o), o.releaseCleanup && o.releaseName == "", o.releaseName == "");
  }

  /**
   * The warning says exactly what the plan does: it lists each enabled
   * category, in the order configuration, release, Tiller, names the release
   * when one is targeted, carries the no-restore note exactly for bulk release
   * cleanup and the unusable note exactly when no release is named.
   */
  lemma {:induction false} DecodeWarning(o: CleanupOptions)
    ensures Decode(WarningMessage(o)) == Some(Intended(o))
  {
    var msg := WarningMessage(o);
    var i := Intended(o);
    DecodeOf(Items(o), i.noRestoreNote, i.unusableNote);
    StripSuffix(Items(o), RemovedLine);
    var rel := DecodeItemsOf(o);
    assert SplitItems(Items(o)) == (i.configuration, rel, i.tiller);
  }

  /** The category list of `o` is read back into the announced categories. */
  lemma DecodeItemsOf(o: CleanupOptions) returns (rel: string)
    ensures SplitItems(Items(o)) == (o.configCleanup, rel, o.tillerCleanup)
    ensures ReadScope(rel) == Some(Intended(o).release)
  {
    rel := if o.releaseCleanup then ReleaseItem(o.releaseName) else "";
    ReleaseItemShape(o.releaseName);
    SplitItemsOf(o.configCleanup, rel, o.tillerCleanup);
    ReadScopeOf(o.releaseName);
  }

  /** Two plans with the same warning announce the same categories, scope and notes. */
  lemma WarningDeterminesAnnouncement(o1: CleanupOptions, o2: CleanupOptions)
    requires WarningMessage(o1) == WarningMessage(o2)
    ensures Intended(o1) == Intended(o2)
  {
    DecodeWarning(o1);
    DecodeWarning(o2);
  }
}
