/**
 * The media browser (`FolderListActivity`): which files count as videos and
 * images, what a directory listing shows and in which order, where the back
 * button goes, what opening an entry does, and the screen title.
 */
module FolderList {

  import opened Wrappers
  import opened Text

  /** `isVideoFile`: the name ends with `.mp4`, ignoring case. */
  predicate IsVideo(name: string) {
    EndsWithIgnoreCase(name, ".mp4")
  }

  /** `isImageFile`: the name ends with `.jpg`, `.jpeg` or `.png`, ignoring case. */
  predicate IsImage(name: string) {
    EndsWithIgnoreCase(name, ".jpg") || EndsWithIgnoreCase(name, ".jpeg") || EndsWithIgnoreCase(name, ".png")
  }

  /** No name is both a video and an image: the last characters already disagree. */
  lemma VideoAndImageDisjoint(name: string)
    ensures !(IsVideo(name) && IsImage(name))
  {
    if IsVideo(name) && IsImage(name) {
      VideoEndsInFour(name);
      ImageEndsInG(name);
    }
  }

  lemma VideoEndsInFour(name: string)
    requires IsVideo(name)
    ensures |name| > 0 && LowerAscii(name[|name| - 1]) == '4'
  {
    var video := ".mp4";
    assert SameIgnoringCase(name[|name| - |video| + 3], video[3]);
  }

  lemma ImageEndsInG(name: string)
    requires IsImage(name)
    ensures |name| > 0 && LowerAscii(name[|name| - 1]) == 'g'
  {
    if EndsWithIgnoreCase(name, ".jpg") {
      var image := ".jpg";
      assert SameIgnoringCase(name[|name| - |image| + 3], image[3]);
    } else if EndsWithIgnoreCase(name, ".jpeg") {
      var image := ".jpeg";
      assert SameIgnoringCase(name[|name| - |image| + 4], image[4]);
    } else {
      var image := ".png";
      assert SameIgnoringCase(name[|name| - |image| + 3], image[3]);
    }
  }

  /** What a directory entry is on disk. */
  datatype Kind = Directory | RegularFile | Other

  /** A directory entry: its name, its kind and its modification time. */
  datatype Entry = Entry(name: string, kind: Kind, lastModified: int)

  /** Hidden entries: names starting with `.`. */
  predicate Hidden(name: string) {
    |name| > 0 && name[0] == '.'
  }

  /** Directories that the listing shows. */
  predicate ListedDirectory(e: Entry) {
    e.kind == Directory && !Hidden(e.name)
  }

  /** Files that the listing shows: visible videos and images. */
  predicate ListedFile(e: Entry) {
    e.kind == RegularFile && !Hidden(e.name) && (IsVideo(e.name) || IsImage(e.name))
  }

  /** The entries of `s` satisfying `keep`, in order. */
  function Filter(keep: Entry -> bool, s: seq<Entry>): (r: seq<Entry>)
    ensures forall e :: e in r <==> e in s && keep(e)
    ensures multiset(r) <= multiset(s)
    ensures forall i :: 0 <= i < |r| ==> keep(r[i])
  {
    if |s| == 0 then []
    else
      assert s == [s[0]] + s[1..];
      (if keep(s[0]) then [s[0]] else []) + Filter(keep, s[1..])
  }

  // ---------------------------------------------------------------------
  // Sorting, as `sortedBy` and `sortedByDescending` do it.

  /** An order on entries: `le(a, b)` when `a` may come before `b`. */
  type Order = (Entry, Entry) -> bool

  ghost predicate TotalOrder(le: Order) {
    (forall a, b :: le(a, b) || le(b, a)) &&
    (forall a, b, c :: le(a, b) && le(b, c) ==> le(a, c))
  }

  predicate SortedBy(le: Order, s: seq<Entry>) {
    forall i, j :: 0 <= i < j < |s| ==> le(s[i], s[j])
  }

  /** `x` placed before the first element it may precede. */
  function Insert(le: Order, x: Entry, s: seq<Entry>): (r: seq<Entry>)
    ensures multiset(r) == multiset(s) + multiset{x}
    ensures |r| == |s| + 1
    decreases |s|
  {
    if |s| == 0 then [x]
    else if le(x, s[0]) then
      assert s == [s[0]] + s[1..];
      [x] + s
    else
      assert s == [s[0]] + s[1..];
      [s[0]] + Insert(le, x, s[1..])
  }

  /** Inserting into a sorted sequence keeps it sorted. */
  lemma {:induction false} InsertKeepsSorted(le: Order, x: Entry, s: seq<Entry>)
    requires TotalOrder(le) && SortedBy(le, s)
    ensures SortedBy(le, Insert(le, x, s))
    decreases |s|
  {
    if |s| > 0 && !le(x, s[0]) {
      var rest := Insert(le, x, s[1..]);
      InsertKeepsSorted(le, x, s[1..]);
      HeadPrecedesInsert(le, x, s);
      var r := [s[0]] + rest;
      assert r == Insert(le, x, s);
      forall i, j | 0 <= i < j < |r| ensures le(r[i], r[j]) {
        assert r[j] == rest[j - 1] && r[j] in rest;
        if i > 0 { assert r[i] == rest[i - 1]; }
      }
    } else if |s| > 0 {
      var r := [x] + s;
      assert r == Insert(le, x, s);
      forall i, j | 0 <= i < j < |r| ensures le(r[i], r[j]) {
        if i == 0 { assert le(x, s[0]); if j > 1 { assert le(s[0], s[j - 1]); } }
        else { assert r[i] == s[i - 1] && r[j] == s[j - 1]; }
      }
    }
  }

  /** When `x` goes after the head of a sorted `s`, that head precedes everything inserted behind it. */
  lemma HeadPrecedesInsert(le: Order, x: Entry, s: seq<Entry>)
    requires TotalOrder(le) && SortedBy(le, s)
    requires |s| > 0 && !le(x, s[0])
    ensures forall y :: y in Insert(le, x, s[1..]) ==> le(s[0], y)
  {
    var rest := Insert(le, x, s[1..]);
    forall y | y in rest ensures le(s[0], y) {
      assert y in multiset(rest);
      if y != x {
        assert y in multiset(s[1..]);
        var j :| 0 <= j < |s[1..]| && s[1..][j] == y;
        assert s[j + 1] == y;
      }
    }
  }

  /** Insertion sort: a permutation of `s`. */
  function SortBy(le: Order, s: seq<Entry>): (r: seq<Entry>)
    ensures multiset(r) == multiset(s)
    ensures |r| == |s|
    decreases |s|
  {
    if |s| == 0 then []
    else
      assert s == [s[0]] + s[1..];
      Insert(le, s[0], SortBy(le, s[1..]))
  }

  /** Under a total order the sort's result is sorted. */
  lemma {:induction false} SortBySorted(le: Order, s: seq<Entry>)
    requires TotalOrder(le)
    ensures SortedBy(le, SortBy(le, s))
    decreases |s|
  {
    if |s| > 0 {
      SortBySorted(le, s[1..]);
      InsertKeepsSorted(le, s[0], SortBy(le, s[1..]));
    }
  }

  /** `sortedBy { it.name }`: ascending by name. */
  function ByName(): Order {
    (a: Entry, b: Entry) => LexLe(a.name, b.name)
  }

  /** `sortedByDescending { it.lastModified() }`: newest first. */
  function NewestFirst(): Order {
    (a: Entry, b: Entry) => a.lastModified >= b.lastModified
  }

  lemma ByNameIsTotalOrder()
    ensures TotalOrder(ByName())
  {
    forall a: Entry, b: Entry ensures ByName()(a, b) || ByName()(b, a) {
      LexLeTotal(a.name, b.name);
    }
    forall a: Entry, b: Entry, c: Entry | ByName()(a, b) && ByName()(b, c) ensures ByName()(a, c) {
      LexLeTransitive(a.name, b.name, c.name);
    }
  }

  lemma NewestFirstIsTotalOrder()
    ensures TotalOrder(NewestFirst())
  {
  }

  // ---------------------------------------------------------------------
  // The listing.

  /**
   * `loadFilesAndFolders`' list: the visible sub-directories by name, then
   * the visible video and image files newest first. `None` stands for a
   * missing directory or a failed `listFiles`, which list nothing.
   */
  function Listing(contents: Option<seq<Entry>>): (r: seq<Entry>)
  {
    match contents
    case None => []
    case Some(entries) =>
      SortBy(ByName(), Filter(ListedDirectory, entries)) + SortBy(NewestFirst(), Filter(ListedFile, entries))
  }

  /** A sorted sequence holds the same entries as the one sorted. */
  lemma SortKeepsMembers(le: Order, s: seq<Entry>)
    ensures forall e :: e in SortBy(le, s) <==> e in s
  {
    var r := SortBy(le, s);
    forall e ensures e in r <==> e in s {
      assert e in r <==> e in multiset(r);
      assert e in s <==> e in multiset(s);
    }
  }

  /** Directories followed by non-directories keep every directory ahead. */
  lemma DirectoriesFirst(sd: seq<Entry>, sf: seq<Entry>)
    requires forall e :: e in sd ==> e.kind == Directory
    requires forall e :: e in sf ==> e.kind != Directory
    ensures var r := sd + sf;
      forall i, j :: 0 <= i < j < |r| && r[j].kind == Directory ==> r[i].kind == Directory
  {
    var r := sd + sf;
    forall i, j | 0 <= i < j < |r| && r[j].kind == Directory ensures r[i].kind == Directory {
      if j >= |sd| { assert false; }
      assert r[i] == sd[i] && r[i] in sd;
    }
  }

  /**
   * The listing shows exactly the visible directories and the visible media
   * files, each as often as the directory holds it, with every directory
   * ahead of every file.
   */
  lemma ListingShowsVisible(entries: seq<Entry>)
    ensures var r := Listing(Some(entries));
      (forall e :: e in r <==> e in entries && (ListedDirectory(e) || ListedFile(e))) &&
      (forall e :: e in r ==> !Hidden(e.name)) &&
      multiset(r) == multiset(Filter(ListedDirectory, entries)) + multiset(Filter(ListedFile, entries)) &&
      (forall i, j :: 0 <= i < j < |r| && r[j].kind == Directory ==> r[i].kind == Directory)
  {
    var d := Filter(ListedDirectory, entries);
    var f := Filter(ListedFile, entries);
    var sd := SortBy(ByName(), d);
    var sf := SortBy(NewestFirst(), f);
    assert Listing(Some(entries)) == sd + sf;
    SortKeepsMembers(ByName(), d);
    SortKeepsMembers(NewestFirst(), f);
    DirectoriesFirst(sd, sf);
  }

  /** The directories come sorted by name, and the files after them newest first. */
  lemma ListingOrder(entries: seq<Entry>)
    ensures var dirs := |Filter(ListedDirectory, entries)|;
      var r := Listing(Some(entries));
      dirs <= |r| &&
      (forall i, j :: 0 <= i < j < dirs ==> LexLe(r[i].name, r[j].name)) &&
      (forall i, j :: dirs <= i < j < |r| ==> r[i].lastModified >= r[j].lastModified)
  {
    var d := Filter(ListedDirectory, entries);
    var f := Filter(ListedFile, entries);
    ByNameIsTotalOrder();
    NewestFirstIsTotalOrder();
    SortBySorted(ByName(), d);
    SortBySorted(NewestFirst(), f);
    SortedHalves(SortBy(ByName(), d), SortBy(NewestFirst(), f));
  }

  lemma SortedHalves(sd: seq<Entry>, sf: seq<Entry>)
    requires SortedBy(ByName(), sd) && SortedBy(NewestFirst(), sf)
    ensures var r := sd + sf;
      (forall i, j :: 0 <= i < j < |sd| ==> LexLe(r[i].name, r[j].name)) &&
      (forall i, j :: |sd| <= i < j < |r| ==> r[i].lastModified >= r[j].lastModified)
  {
    var r := sd + sf;
    forall i, j | 0 <= i < j < |sd| ensures LexLe(r[i].name, r[j].name) {
      assert ByName()(sd[i], sd[j]);
    }
    forall i, j | |sd| <= i < j < |r| ensures r[i].lastModified >= r[j].lastModified {
      assert NewestFirst()(sf[i - |sd|], sf[j - |sd|]);
    }
  }

  // ---------------------------------------------------------------------
  // Navigation.

  /** A directory as the components of its path. */
  type Path = seq<string>

  /** `File.parentFile`: absent for a path with no components. */
  function Parent(p: Path): (r: Option<Path>)
    ensures r.Some? <==> |p| > 0
    ensures r.Some? ==> r.value + [p[|p| - 1]] == p
  {
    if |p| == 0 then None else Some(p[..|p| - 1])
  }

  datatype BackAction = ShowRoot | CloseBrowser

  /** `handleBackNavigation`: back to the root from a direct sub-folder of it, otherwise close. */
  function Back(current: Option<Path>, root: Option<Path>): BackAction
  {
    if current.Some? && root.Some? && current != root && Parent(current.value) == root then ShowRoot
    else CloseBrowser
  }

  /** Back shows the root exactly when the current directory is one level below it. */
  lemma BackGoesToRootFromChild(current: Option<Path>, root: Option<Path>)
    ensures Back(current, root) == ShowRoot <==>
      current.Some? && root.Some? && exists name :: current.value == root.value + [name]
  {
    if current.Some? && root.Some? {
      var c := current.value;
      if exists name :: c == root.value + [name] {
        var name :| c == root.value + [name];
        assert c[..|c| - 1] == root.value;
        assert current != root by { assert |c| != |root.value|; }
      }
      if Back(current, root) == ShowRoot {
        assert c == root.value + [c[|c| - 1]];
      }
    }
  }

  /** What tapping an entry does. */
  datatype OpenAction = Navigate(into: Entry) | Play | View | Unsupported

  /** `openFileOrFolder`: directories are entered, anything else is judged by its name. */
  function Open(e: Entry): (a: OpenAction)
  {
    if e.kind == Directory then Navigate(e)
    else if IsVideo(e.name) then Play
    else if IsImage(e.name) then View
    else Unsupported
  }

  /**
   * Opening dispatches by kind and then by name; nothing the listing shows
   * is ever reported as unsupported.
   */
  lemma OpenDispatch(e: Entry)
    ensures Open(e).Navigate? <==> e.kind == Directory
    ensures Open(e) == Play <==> e.kind != Directory && IsVideo(e.name)
    ensures Open(e) == View <==> e.kind != Directory && IsImage(e.name)
    ensures ListedDirectory(e) || ListedFile(e) ==> Open(e) != Unsupported
  {
    VideoAndImageDisjoint(e.name);
  }

  /** The last component of a path; the empty name for a path with none. */
  function NameOf(p: Path): string {
    if |p| == 0 then "" else p[|p| - 1]
  }

  /** The screen title: "Recorded Media" at the root, else the directory's name, else "Unknown". */
  function Title(directory: Option<Path>, root: Option<Path>): string
  {
    if directory == root then "Recorded Media"
    else match directory
      case Some(p) => NameOf(p)
      case None => "Unknown"
  }

  /**
   * Entering a folder from the root titles the screen with the folder's
   * name, and the back button from there restores the root's title.
   */
  lemma TitleFollowsNavigation(root: Path, name: string)
    ensures Title(Some(root + [name]), Some(root)) == name
    ensures Back(Some(root + [name]), Some(root)) == ShowRoot
    ensures Title(Some(root), Some(root)) == "Recorded Media"
  {
    BackGoesToRootFromChild(Some(root + [name]), Some(root));
    assert |root + [name]| != |root|;
  }
}
