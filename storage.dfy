/** The per-group scan chain of main.py: a StorageItem walks the head of its
    directory list, adds what it finds to its usage counter, marks the walk
    done and, while more than one directory is left, pops the head and walks
    the next one. The chain runs on background threads in the program; each
    walk starts only from the end of the previous one, so for one item the
    chain is sequential and is modelled as mutual recursion. */
module Storage {
  import opened FileTree

  /** What queue_size_get does: it starts the walk of the head directory,
      or raises IndexError on an empty list. */
  datatype Outcome = Started | IndexError

  /** The total size of a sequence of directories, in list order. */
  function GroupUsage(fs: FileSystem, ds: seq<string>): nat
  {
    if ds == [] then 0 else PathUsage(fs, ds[0]) + GroupUsage(fs, ds[1..])
  }

  /** The values the usage counter holds each time a walk of the chain
      finishes, starting from `u`. */
  function Checkpoints(u: nat, fs: FileSystem, ds: seq<string>): seq<nat>
    decreases ds
  {
    if ds == [] then []
    else [u + PathUsage(fs, ds[0])] + Checkpoints(u + PathUsage(fs, ds[0]), fs, ds[1..])
  }

  /** The directories update_size goes on to walk after the head: the tail
      when more than one is left, none otherwise. */
  function Requeued(ds: seq<string>): (r: seq<string>)
    ensures |ds| > 1 ==> [ds[0]] + r == ds
    ensures |ds| <= 1 ==> r == []
  {
    if |ds| > 1 then ds[1..] else []
  }

  function Last(ds: seq<string>): string
    requires ds != []
  {
    ds[|ds| - 1]
  }

  lemma {:induction false} GroupUsageAppend(fs: FileSystem, a: seq<string>, b: seq<string>)
    ensures GroupUsage(fs, a + b) == GroupUsage(fs, a) + GroupUsage(fs, b)
  {
    if a == [] {
      assert a + b == b;
    } else {
      assert (a + b)[1..] == a[1..] + b;
      GroupUsageAppend(fs, a[1..], b);
    }
  }

  /** After the k-th walk of the chain the counter holds the starting value
      plus the sizes of exactly the first k directories: a chain stopped
      early keeps the partial sum of the directories it finished. */
  lemma {:induction false} CheckpointsArePrefixSums(u: nat, fs: FileSystem, ds: seq<string>)
    ensures |Checkpoints(u, fs, ds)| == |ds|
    ensures forall k :: 0 <= k < |ds| ==> Checkpoints(u, fs, ds)[k] == u + GroupUsage(fs, ds[..k + 1])
    decreases ds
  {
    if ds != [] {
      var u' := u + PathUsage(fs, ds[0]);
      CheckpointsArePrefixSums(u', fs, ds[1..]);
      forall k | 0 <= k < |ds|
        ensures Checkpoints(u, fs, ds)[k] == u + GroupUsage(fs, ds[..k + 1])
      {
        assert ds[..k + 1] == [ds[0]] + ds[1..][..k];
        GroupUsageAppend(fs, [ds[0]], ds[1..][..k]);
        assert GroupUsage(fs, [ds[0]]) == PathUsage(fs, ds[0]) by {
          assert [ds[0]][1..] == [];
        }
        if k > 0 { assert Checkpoints(u, fs, ds)[k] == Checkpoints(u', fs, ds[1..])[k - 1]; }
      }
    }
  }

  /** The counter never goes down along the chain, and the last value it
      reaches is the starting value plus the size of every directory. */
  lemma {:induction false} CheckpointsNonDecreasing(u: nat, fs: FileSystem, ds: seq<string>)
    ensures |Checkpoints(u, fs, ds)| == |ds|
    ensures forall i, j :: 0 <= i <= j < |ds| ==> u <= Checkpoints(u, fs, ds)[i] <= Checkpoints(u, fs, ds)[j]
    ensures ds != [] ==> Checkpoints(u, fs, ds)[|ds| - 1] == u + GroupUsage(fs, ds)
    decreases ds
  {
    if ds != [] {
      var u' := u + PathUsage(fs, ds[0]);
      CheckpointsNonDecreasing(u', fs, ds[1..]);
      var cp := Checkpoints(u, fs, ds);
      assert cp == [u'] + Checkpoints(u', fs, ds[1..]);
      forall i, j | 0 <= i <= j < |ds| ensures u <= cp[i] <= cp[j] {
        if i > 0 { assert cp[i] == Checkpoints(u', fs, ds[1..])[i - 1]; }
        if j > 0 { assert cp[j] == Checkpoints(u', fs, ds[1..])[j - 1]; }
      }
    }
  }

  class StorageItem {
    /** The directories still to walk; the head is the one being walked. */
    var directories: seq<string>
    /** Bytes found so far. */
    var usage: nat
    /** Set when a walk has finished. */
    var threadDone: bool
    /** The item's 1-based position in the list of storage items. */
    var index: int
    /** The directories walked so far, in order. */
    ghost var walked: seq<string>
    /** The usage value at the end of each walk so far. */
    ghost var checkpoints: seq<nat>

    /** A new item holds the class defaults (usage 0, thread_done False,
        index 1) and the directory list it is given. */
    constructor (directories: seq<string>)
      ensures this.directories == directories && usage == 0 && !threadDone && index == 1
      ensures walked == [] && checkpoints == []
    {
      this.directories := directories;
      usage := 0;
      threadDone := false;
      index := 1;
      walked := [];
      checkpoints := [];
    }

    /** queue_size_get: clears thread_done and starts the walk of the head
        directory; with no directory the lookup of the head raises
        IndexError after thread_done has been cleared. Started on a list
        d1..dn, the chain walks d1..dn in order, adds the size of each to
        usage, keeps only dn and ends with thread_done set. */
    method QueueSizeGet(items: seq<StorageItem>, fs: FileSystem) returns (outcome: Outcome)
      requires Registered(items, this)
      modifies this
      decreases |directories|, 2
      ensures index == old(index)
      ensures old(directories) == [] ==>
                outcome == IndexError && !threadDone && usage == old(usage) && directories == []
                && walked == old(walked) && checkpoints == old(checkpoints)
      ensures old(directories) != [] ==>
                outcome == Started && threadDone
                && directories == [Last(old(directories))]
                && usage == old(usage) + GroupUsage(fs, old(directories))
                && walked == old(walked) + old(directories)
                && checkpoints == old(checkpoints) + Checkpoints(old(usage), fs, old(directories))
    {
      threadDone := false;
      if directories == [] {
        return IndexError;
      }
      ghost var ds := directories;
      AsyncDirectoryUsage(items, fs, directories[0], index);
      outcome := Started;
      assert [ds[0]] + Requeued(ds) == ds;
    }

    /** update_size: when the walk is done and more than one directory is
        left, drop the head and queue the next; otherwise nothing changes.
        The last directory is never dropped. */
    method UpdateSize(items: seq<StorageItem>, fs: FileSystem)
      requires Registered(items, this)
      modifies this
      decreases |directories|, 0
      ensures index == old(index)
      ensures old(directories) != [] ==> directories != [] && Last(directories) == Last(old(directories))
      ensures old(threadDone) && |old(directories)| > 1 ==>
                threadDone && directories == [Last(old(directories))]
                && usage == old(usage) + GroupUsage(fs, old(directories)[1..])
                && walked == old(walked) + old(directories)[1..]
                && checkpoints == old(checkpoints) + Checkpoints(old(usage), fs, old(directories)[1..])
      ensures !(old(threadDone) && |old(directories)| > 1) ==>
                directories == old(directories) && usage == old(usage) && threadDone == old(threadDone)
                && walked == old(walked) && checkpoints == old(checkpoints)
    {
      if threadDone && |directories| > 1 {
        ghost var ds := directories;
        directories := directories[1..];
        var outcome := QueueSizeGet(items, fs);
        assert Last(ds[1..]) == Last(ds);
      }
    }
  }

  /** The item at position `item.index` of the list is the item itself, as
      the start-up loop of main.py arranges. */
  predicate Registered(items: seq<StorageItem>, item: StorageItem)
    reads item
  {
    1 <= item.index <= |items| && items[item.index - 1] == item
  }

  /** async_directory_usage: walks `directory`, adding the size of each file
      that is neither a link nor a mount point to the usage of item
      `index`, skipping files whose size lookup fails; then sets
      thread_done and calls update_size. */
  method AsyncDirectoryUsage(items: seq<StorageItem>, fs: FileSystem, directory: string, index: int)
    requires 1 <= index <= |items| && items[index - 1].index == index
    modifies items[index - 1]
    decreases |items[index - 1].directories|, 1
    ensures items[index - 1].index == index
    ensures items[index - 1].threadDone
    ensures items[index - 1].usage
         == old(items[index - 1].usage) + GroupUsage(fs, [directory] + Requeued(old(items[index - 1].directories)))
    ensures items[index - 1].directories
         == if |old(items[index - 1].directories)| > 1 then [Last(old(items[index - 1].directories))]
            else old(items[index - 1].directories)
    ensures items[index - 1].walked
         == old(items[index - 1].walked) + [directory] + Requeued(old(items[index - 1].directories))
    ensures items[index - 1].checkpoints
         == old(items[index - 1].checkpoints)
            + Checkpoints(old(items[index - 1].usage), fs, [directory] + Requeued(old(items[index - 1].directories)))
  {
    var item := items[index - 1];
    var levels := WalkPath(fs, directory);
    var i := 0;
    while i < |levels|
      invariant 0 <= i <= |levels|
      invariant item.usage == old(item.usage) + LevelsUsage(levels[..i])
      invariant item.directories == old(item.directories) && item.index == index
      invariant item.walked == old(item.walked) && item.checkpoints == old(item.checkpoints)
    {
      var filenames := levels[i];
      var j := 0;
      while j < |filenames|
        invariant 0 <= j <= |filenames|
        invariant item.usage == old(item.usage) + LevelsUsage(levels[..i]) + FilesUsage(filenames[..j])
        invariant item.directories == old(item.directories) && item.index == index
        invariant item.walked == old(item.walked) && item.checkpoints == old(item.checkpoints)
      {
        var f := filenames[j];
        if !(f.isLink || f.isMount) {
          if f.readable {
            item.usage := item.usage + f.size;
          }
        }
        assert filenames[..j + 1][..j] == filenames[..j];
        j := j + 1;
      }
      assert filenames[..j] == filenames;
      assert levels[..i + 1][..i] == levels[..i];
      i := i + 1;
    }
    assert levels[..i] == levels;
    WalkPathUsage(fs, directory);
    item.threadDone := true;
    item.walked := item.walked + [directory];
    item.checkpoints := item.checkpoints + [item.usage];
    ghost var ds := item.directories;
    ghost var u1 := item.usage;
    item.UpdateSize(items, fs);
    GroupUsageAppend(fs, [directory], Requeued(ds));
    assert GroupUsage(fs, [directory]) == PathUsage(fs, directory) by {
      assert [directory][1..] == [];
    }
    assert ([directory] + Requeued(ds))[1..] == Requeued(ds);
  }

  /** The start-up of one storage item: a fresh item over `dirs` at
      position 1, queued once. On a non-empty list the chain ends with the
      total size of all of its directories, thread_done set and only the
      last directory left; on an empty list queue_size_get raises. */
  method ScanStorageItem(fs: FileSystem, dirs: seq<string>)
    returns (outcome: Outcome, usage: nat, done: bool, remaining: seq<string>)
    ensures dirs == [] ==> outcome == IndexError && usage == 0 && !done && remaining == []
    ensures dirs != [] ==>
              outcome == Started && usage == GroupUsage(fs, dirs) && done && remaining == [Last(dirs)]
  {
    var item := new StorageItem(dirs);
    outcome := item.QueueSizeGet([item], fs);
    usage, done, remaining := item.usage, item.threadDone, item.directories;
  }
}
