/** The directory walk of main.py: what os.walk reports for a directory tree,
    and the byte sum that get_directory_usage / async_directory_usage compute
    from it. */
module FileTree {

  /** What the walk learns about one non-directory entry: its size as
      os.path.getsize would report it, whether os.path.islink / ismount hold,
      and whether getsize succeeds (a vanished file or a denied stat raises). */
  datatype FileStat = FileStat(size: nat, isLink: bool, isMount: bool, readable: bool)

  /** One entry of a directory tree. A directory that is a symbolic link is
      listed among the sub-directories but not entered (os.walk does not follow
      links); a directory that cannot be listed yields nothing. The walk never
      asks whether a directory is a mount point, so `isMount` on a directory
      has no effect. */
  datatype Entry =
    | File(stat: FileStat)
    | Dir(isLink: bool, isMount: bool, listable: bool, children: seq<Entry>)

  /** The filesystem the program sees: each path names the tree below it.
      A path absent from the map does not exist. */
  type FileSystem = map<string, Entry>

  /** The bytes one file adds: nothing for a link or a mount point, nothing
      when its size lookup fails, its size otherwise. */
  function Contribution(f: FileStat): (n: nat)
    ensures n <= f.size
    ensures n == f.size <== !f.isLink && !f.isMount && f.readable
    ensures n == 0 <== f.isLink || f.isMount || !f.readable
  {
    if f.isLink || f.isMount then 0
    else if f.readable then f.size
    else 0
  }

  // ---------------------------------------------------------------------------
  // The walk as os.walk reports it: one list of file names per directory
  // visited, top-down, sub-directories in listing order.

  /** The non-directory entries of one listing, in order. */
  function FileNames(cs: seq<Entry>): (fs: seq<FileStat>)
    ensures |fs| <= |cs|
    ensures forall f :: f in fs <==> File(f) in cs
  {
    if cs == [] then []
    else (if cs[0].File? then [cs[0].stat] else []) + FileNames(cs[1..])
  }

  /** The file lists of every directory visited below `root`, in the order
      os.walk(root) yields them; nothing when `root` is not a listable
      directory. */
  function Walk(root: Entry): seq<seq<FileStat>>
    decreases root, 1
  {
    match root
    case File(_) => []
    case Dir(_, _, listable, cs) =>
      if listable then [FileNames(cs)] + SubWalks(cs) else []
  }

  /** The walks of the sub-directories of one listing that os.walk enters
      (those that are not links), one after the other. */
  function SubWalks(cs: seq<Entry>): seq<seq<FileStat>>
    decreases cs, 0
  {
    if cs == [] then []
    else (if cs[0].Dir? && !cs[0].isLink then Walk(cs[0]) else []) + SubWalks(cs[1..])
  }

  /** The walk of a path: nothing when the path does not exist. */
  function WalkPath(fs: FileSystem, path: string): seq<seq<FileStat>>
  {
    if path in fs then Walk(fs[path]) else []
  }

  /** The bytes the inner loop adds over one file list. */
  function FilesUsage(files: seq<FileStat>): nat
  {
    if files == [] then 0
    else FilesUsage(files[..|files| - 1]) + Contribution(files[|files| - 1])
  }

  /** The bytes both loops add over a sequence of file lists. */
  function LevelsUsage(levels: seq<seq<FileStat>>): nat
  {
    if levels == [] then 0
    else LevelsUsage(levels[..|levels| - 1]) + FilesUsage(levels[|levels| - 1])
  }

  // ---------------------------------------------------------------------------
  // The size of a tree as a structural fold: the reference definition.

  /** What one entry met inside a walked directory adds: a file its
      contribution, a directory that is entered the size of its contents. */
  function EntryUsage(e: Entry): nat
    decreases e, 1
  {
    match e
    case File(f) => Contribution(f)
    case Dir(link, _, listable, cs) => if link || !listable then 0 else EntriesUsage(cs)
  }

  function EntriesUsage(cs: seq<Entry>): nat
    decreases cs, 0
  {
    if cs == [] then 0 else EntryUsage(cs[0]) + EntriesUsage(cs[1..])
  }

  /** The size of a directory walked as a root: a root given as a link is
      still entered (os.walk lists the directory the link points to). */
  function DirectoryUsage(root: Entry): nat
  {
    match root
    case File(_) => 0
    case Dir(_, _, listable, cs) => if listable then EntriesUsage(cs) else 0
  }

  /** The size of a path: nothing for a path that does not exist. */
  function PathUsage(fs: FileSystem, path: string): nat
  {
    if path in fs then DirectoryUsage(fs[path]) else 0
  }

  // ---------------------------------------------------------------------------
  // Lemmas

  lemma {:induction false} FilesUsageAppend(a: seq<FileStat>, b: seq<FileStat>)
    ensures FilesUsage(a + b) == FilesUsage(a) + FilesUsage(b)
    decreases |b|
  {
    if b != [] {
      var b' := b[..|b| - 1];
      assert (a + b)[..|a + b| - 1] == a + b';
      FilesUsageAppend(a, b');
    } else {
      assert a + b == a;
    }
  }

  lemma {:induction false} LevelsUsageAppend(a: seq<seq<FileStat>>, b: seq<seq<FileStat>>)
    ensures LevelsUsage(a + b) == LevelsUsage(a) + LevelsUsage(b)
    decreases |b|
  {
    if b != [] {
      var b' := b[..|b| - 1];
      assert (a + b)[..|a + b| - 1] == a + b';
      LevelsUsageAppend(a, b');
    } else {
      assert a + b == a;
    }
  }

  lemma FilesUsageOne(f: FileStat)
    ensures FilesUsage([f]) == Contribution(f)
  {
    assert [f][..0] == [];
  }

  lemma LevelsUsageOne(files: seq<FileStat>)
    ensures LevelsUsage([files]) == FilesUsage(files)
  {
    assert [files][..0] == [];
  }

  /** Summing what os.walk reports, file list by file list, gives the size of
      the tree: the loops of get_directory_usage compute the fold. */
  lemma {:induction false} WalkUsage(root: Entry)
    ensures LevelsUsage(Walk(root)) == DirectoryUsage(root)
    decreases root, 1
  {
    match root
    case File(_) =>
    case Dir(_, _, listable, cs) =>
      if listable {
        LevelsUsageAppend([FileNames(cs)], SubWalks(cs));
        LevelsUsageOne(FileNames(cs));
        ListingUsage(cs);
      }
  }

  /** One listing: its files plus the walks of the directories entered below it. */
  lemma {:induction false} ListingUsage(cs: seq<Entry>)
    ensures FilesUsage(FileNames(cs)) + LevelsUsage(SubWalks(cs)) == EntriesUsage(cs)
    decreases cs, 0
  {
    if cs != [] {
      var c := cs[0];
      ListingUsage(cs[1..]);
      var head := if c.File? then [c.stat] else [];
      var sub := if c.Dir? && !c.isLink then Walk(c) else [];
      FilesUsageAppend(head, FileNames(cs[1..]));
      LevelsUsageAppend(sub, SubWalks(cs[1..]));
      match c
      case File(f) =>
        FilesUsageOne(f);
      case Dir(link, _, listable, _) =>
        if !link { WalkUsage(c); }
    }
  }

  lemma WalkPathUsage(fs: FileSystem, path: string)
    ensures LevelsUsage(WalkPath(fs, path)) == PathUsage(fs, path)
  {
    if path in fs { WalkUsage(fs[path]); }
  }

  /** The size of a listing is the sum of the sizes of its parts. */
  lemma {:induction false} EntriesUsageAppend(a: seq<Entry>, b: seq<Entry>)
    ensures EntriesUsage(a + b) == EntriesUsage(a) + EntriesUsage(b)
  {
    if a != [] {
      assert (a + b)[1..] == a[1..] + b;
      EntriesUsageAppend(a[1..], b);
    } else {
      assert a + b == b;
    }
  }

  lemma EntriesUsageOne(e: Entry)
    ensures EntriesUsage([e]) == EntryUsage(e)
  {
    assert [e][1..] == [];
  }

  /** A file anywhere in a listing adds its contribution and nothing else:
      a link, a mount point or a file whose size lookup raises adds 0 and the
      entries after it are still summed. */
  lemma FileInListing(before: seq<Entry>, f: FileStat, after: seq<Entry>)
    ensures EntriesUsage(before + [File(f)] + after)
         == EntriesUsage(before) + EntriesUsage(after)
            + (if f.isLink || f.isMount || !f.readable then 0 else f.size)
  {
    EntriesUsageAppend(before + [File(f)], after);
    EntriesUsageAppend(before, [File(f)]);
    EntriesUsageOne(File(f));
  }

  /** A sub-directory that is a symbolic link is not entered: nothing below it counts. */
  lemma LinkedDirectoryInListing(before: seq<Entry>, mount: bool, listable: bool,
                                 cs: seq<Entry>, after: seq<Entry>)
    ensures EntriesUsage(before + [Dir(true, mount, listable, cs)] + after)
         == EntriesUsage(before) + EntriesUsage(after)
  {
    EntriesUsageAppend(before + [Dir(true, mount, listable, cs)], after);
    EntriesUsageAppend(before, [Dir(true, mount, listable, cs)]);
    EntriesUsageOne(Dir(true, mount, listable, cs));
  }

  /** A sub-directory that is a mount point is entered like any other:
      os.walk crosses into it and only file entries are tested. */
  lemma MountedDirectoryInListing(before: seq<Entry>, cs: seq<Entry>, after: seq<Entry>)
    ensures EntriesUsage(before + [Dir(false, true, true, cs)] + after)
         == EntriesUsage(before) + EntriesUsage(cs) + EntriesUsage(after)
  {
    EntriesUsageAppend(before + [Dir(false, true, true, cs)], after);
    EntriesUsageAppend(before, [Dir(false, true, true, cs)]);
    EntriesUsageOne(Dir(false, true, true, cs));
  }

  /** A directory holding files of 100, 250 and 650 bytes and a broken
      symbolic link is 1000 bytes. */
  lemma ThreeFilesAndBrokenLink()
    ensures DirectoryUsage(Dir(false, false, true,
              [File(FileStat(100, false, false, true)), File(FileStat(250, false, false, true)),
               File(FileStat(650, false, false, true)), File(FileStat(0, true, false, false))])) == 1000
  {
  }

  // ---------------------------------------------------------------------------
  // get_directory_usage

  /** Walks `directory` and sums the sizes of the files that are neither
      links nor mount points, skipping any whose size lookup fails. */
  method GetDirectoryUsage(fs: FileSystem, directory: string) returns (size: nat)
    ensures size == PathUsage(fs, directory)
  {
    var levels := WalkPath(fs, directory);
    size := 0;
    var i := 0;
    while i < |levels|
      invariant 0 <= i <= |levels|
      invariant size == LevelsUsage(levels[..i])
    {
      var filenames := levels[i];
      var j := 0;
      while j < |filenames|
        invariant 0 <= j <= |filenames|
        invariant size == LevelsUsage(levels[..i]) + FilesUsage(filenames[..j])
      {
        var f := filenames[j];
        if !(f.isLink || f.isMount) {
          if f.readable {
            size := size + f.size;
          }
        }
        assert filenames[..j + 1][..j] == filenames[..j];
        j := j + 1;
      }
      assert filenames[..j] == filenames;
      assert levels[..i + 1][..i] == levels[..i];
      i := i + 1;
    }
    assert levels[..i] == levels;
    WalkPathUsage(fs, directory);
  }
}
