# StorageManager core in Dafny

StorageManager is a small PyQt desktop tool in one file, main.py. It shows how much of the disk four storage groups take: "System", "Applications", "User data" and "My files". Apart from the window, it does four things, and this project models each of them:

- **Catalog** (`catalog.dfy`): builds each group's list of root directories at start-up, for POSIX and for Windows. The inputs are the listings of the home directory, of `C:\` and of `/usr`.
- **FileTree** (`file_tree.dfy`): `get_directory_usage`, a walk of one directory tree that sums the sizes of its files. It skips symbolic links and mount points. A file whose size lookup raises adds nothing, and the walk goes on.
- **Storage** (`storage.dfy`): the scan chain of a `StorageItem`. `queue_size_get` walks the head of the item's directory list with `async_directory_usage`, which adds each file's size to the item's `usage`. It then sets `thread_done` and calls `update_size`. While more than one directory is left, `update_size` pops the head and queues the next one.
- **Units** (`units.dfy`): the choice of unit and divisor in `human_readable`.

The filesystem is a value: `FileTree.FileSystem` maps each path to a tree of `Entry` values. A `File` entry carries a size and the answers `islink`, `ismount` and `getsize` would give. A `Dir` entry says whether it is a link and whether it can be listed. `Walk` models os.walk: per visited directory, the list of file entries it reports, top-down, with sub-directories in listing order. Symbolic-link sub-directories are not entered. A directory that cannot be listed gives nothing. A path that does not exist gives nothing. Two things show that the loops compute what the comments in main.py promise:

- `GetDirectoryUsage` and `AsyncDirectoryUsage` run the source's two nested loops over that walk.
- The lemma `WalkUsage` proves that summing the walk gives `DirectoryUsage`, a structural fold over the tree.

For one item, the program runs its walks on a chain of threads. A new walk starts only when the previous one ends (main.py:116-117 and 167-170), so the walks of one item never overlap. The model therefore runs the chain as mutual recursion, QueueSizeGet → AsyncDirectoryUsage → UpdateSize → QueueSizeGet, ordered by the length of the directory list. Two ghost fields record the chain's progress:

- `walked`: the directories walked so far, in order.
- `checkpoints`: the value of `usage` at the end of each walk.

Three behaviours of main.py that a reader might not expect; the model follows the code:

- `usage` is never reset when a scan starts. It starts at the class default 0, and each walk only adds to it.
- Mount points are tested only on file entries. os.walk still descends into a directory that is a mount point (`FileTree.MountedDirectoryInListing`).
- There is no cancellation. Once queued, a chain runs to its last directory.

## Model

| member | source | states |
|---|---|---|
| FileTree.Contribution | main.py:109-114 | a file adds its size only when it is neither a link nor a mount point and its size lookup succeeds, and otherwise 0; it never adds more than its size |
| FileTree.FileNames | main.py:105-106 | the file list os.walk reports for one directory has the same members as the `File` entries of its listing, and is no longer than the listing |
| FileTree.WalkUsage | main.py:120-132 | summing the walk's per-directory file lists with the per-file filter gives the structural size of the tree: links are not followed, unlistable directories count 0, and the root is entered even when it is a link |
| FileTree.ListingUsage | main.py:122-131 | for one listing, its files plus the walks of the sub-directories os.walk enters add up to the fold over that listing |
| FileTree.WalkPathUsage | main.py:120-132 | the same holds for a path, and a path that does not exist gives 0 |
| FileTree.EntriesUsageAppend | main.py:122-131 | the size of a listing is the sum of the sizes of any split of it |
| FileTree.FileInListing | main.py:110-114 | a file anywhere in a listing adds its size if it is counted, and 0 if it is a link, a mount point or unreadable; the entries after it are still summed |
| FileTree.LinkedDirectoryInListing | main.py:105 | a sub-directory that is a symbolic link adds nothing: the walk does not enter it |
| FileTree.MountedDirectoryInListing | main.py:105-110 | a sub-directory that is a mount point is entered and its contents are counted, because only file entries are tested |
| FileTree.ThreeFilesAndBrokenLink | main.py:120-132 | files of 100, 250 and 650 bytes plus a broken link sum to 1000 |
| FileTree.GetDirectoryUsage | main.py:120-132 | the nested loops over the walk return exactly `PathUsage`, the fold over the tree |
| Units.HumanReadable | main.py:93-101 | GB (divisor 10^9) exactly when num > 10^9; MB (divisor 10^6) exactly when 2000 < num ≤ 10^9; KB (divisor 1000) exactly when 1000 < num ≤ 2000; B (divisor 1) exactly when num ≤ 1000 |
| Units.HumanReadableIntended | main.py:93-101 | the same rule with the MB threshold at 10^6: MB for 10^6 < num ≤ 10^9, KB for 1000 < num ≤ 10^6 |
| Units.IntendedScaleInRange | main.py:93-101 | with the intended threshold, a count shown in a unit above B is larger than its divisor, and a count shown below GB is at most 1000 times its divisor |
| Units.AsWrittenShowsFractionOfMegabyte | main.py:96-97 | as written, every count strictly between 2000 and 10^6 is shown in MB as a number below 1, where the intended rule picks KB |
| Units.AsWrittenAgreesOutsideBand | main.py:93-101 | outside 2000 < num ≤ 10^6 the written and the intended rule agree |
| Catalog.FirstIndex | main.py:31 | the position list.remove deletes at: the first occurrence of the name |
| Catalog.RemoveFirst | main.py:45-46 | list.remove fails exactly when the name is absent; otherwise it deletes the first occurrence, keeps the order of the rest and removes one copy from the multiset |
| Catalog.Without | main.py:44-46 | the filter that keeps every entry except one name holds exactly the other names of the listing |
| Catalog.Prefixed | main.py:47-48 | prefixing keeps the length, and entry k becomes the prefix followed by entry k |
| Catalog.RemoveFirstDistinct | main.py:45-46 | on a listing that names each entry once, list.remove equals the filter that drops the name |
| Catalog.RemoveFirstKeeps | main.py:45-46 | removing `.local` keeps every other name, so the later `.config` removal fails exactly when `.config` was never there |
| Catalog.UsrSystemDirs | main.py:60-62 | "/usr/" + item for each /usr entry other than share and local, in listing order: never more entries than the listing, each under "/usr/" |
| Catalog.UsrSystemDirsMember | main.py:60-62 | "/usr/" + item is in the system list exactly when item is in the /usr listing and is neither share nor local |
| Catalog.PosixSystemAvoidsOtherRoots | main.py:37-62 | the POSIX system list never contains /usr/local, /usr/share, /opt or /tmp, which are the roots of the Applications and User data groups |
| Catalog.PrefixEach | main.py:32-33 | the in-place loop leaves the same number of entries, with entry k equal to the prefix followed by the old entry k |
| Catalog.PosixSysDirs | main.py:55-62 | POSIX sys_dirs is "/etc" followed by "/usr/" + item for every /usr entry other than share and local, in listing order |
| Catalog.PosixUserDirs | main.py:44-48 | fails with ValueError(".local") or ValueError(".config") exactly when that name is missing, .local first; otherwise it holds two entries fewer than the listing, all under home + "/", and for a listing with distinct names it is the listing without the two names, each prefixed, in order |
| Catalog.WindowsSysDirs | main.py:30-33 | fails with ValueError("Users") exactly when Users is missing; otherwise it holds one entry fewer than the listing, all under `C:\`, and for distinct names it is the listing without Users, each prefixed |
| Catalog.BuildGroups | main.py:19-62 | Windows: on success the Applications and User data lists are empty and My files is [home]; POSIX: Applications and User data are the fixed lists, System and My files are as above, and the result fails exactly when .local or .config is missing |
| Catalog.PosixHomeEntriesCovered | main.py:37-53 | on POSIX every home entry is scanned by some group (.local by Applications, .config by User data, the rest by My files), and My files holds neither of the two |
| Storage.CheckpointsArePrefixSums | main.py:112-117 | after the k-th walk of the chain, usage equals the starting value plus the sizes of exactly the first k directories |
| Storage.CheckpointsNonDecreasing | main.py:112-117 | usage never decreases along the chain, never falls below its starting value, and its last value is the starting value plus the size of every directory |
| Storage.StorageItem.constructor | main.py:149-190 | a new item has usage 0, thread_done False and index 1 (the class defaults at lines 149-159), plus the directory list `__init__` assigns at line 190 |
| Storage.StorageItem.QueueSizeGet | main.py:161-165 | on an empty list: IndexError, with thread_done cleared and nothing else changed; on d1..dn: walks d1..dn in order, adds their total size to usage, ends with thread_done set and only dn left, and records each partial sum |
| Storage.StorageItem.UpdateSize | main.py:167-170 | pops the head and re-queues only when thread_done is set and more than one directory is left, then walks the tail; otherwise nothing changes; the last directory is never removed |
| Storage.AsyncDirectoryUsage | main.py:104-117 | adds exactly the walked directory's `PathUsage` to usage (the same filter and sum as get_directory_usage), sets thread_done, then continues the chain through update_size |
| Storage.ScanStorageItem | main.py:345-362 | a fresh item queued once over a non-empty list ends with usage equal to the total size of the list, thread_done set and only the last directory left; over an empty list (Windows Applications) queue_size_get raises IndexError |

## Left out

- Everything Qt: `Colour`, `Window`, the widget part of `StorageItem.__init__`, `paintEvent`, `enterEvent`/`leaveEvent`, label geometry and the refresh timer. These are display code.
- `get_usage` and the module globals `total`/`usage`/`free`/`ratio`. They are a psutil call scaled to float gigabytes.
- `StorageItem.update`. It computes a float percentage against the global `usage` and sets label text.
- Threads. The chain of one item is run sequentially, because its walks never overlap. The four items run their chains at the same time in the program; the model scans one item at a time. The UI's unsynchronised reads of `thread_done` and `usage` while a walk runs are not modelled.
- The start-up loop over all four items is modelled only for one item (`ScanStorageItem`). `BuildGroups` shows that on Windows the Applications list is empty, and `QueueSizeGet` shows that an empty list raises IndexError. In the program this exception stops the start-up before the last two items are queued; the model does not run that sequence.
- os.walk, os.path.islink, os.path.ismount, os.path.getsize, os.listdir and Path.home. They are modelled by the `Entry` tree, the `FileSystem` map and the listings passed in as parameters. A failing os.listdir at start-up, and the case where `is_dir()` raises while os.walk classifies an entry, are not modelled.
- Walks of nested root paths are not forced to agree. The `FileSystem` map gives each root its own tree, so a tree under /usr and the tree under /usr/local need not match.
- The `"%.1f"` rendering of the scaled value (float division and rounding). The OverflowError that float division raises for counts beyond the float range is not modelled either. Only the unit and the divisor are modelled.
- The `print(e)` diagnostics for files whose size lookup fails.
- Aliasing between an item's directory list and the module-level list it was built from: `pop(0)` also shortens `sys_dirs` and the others. Nothing reads those lists again, so the model passes the list by value.
- Storage.AsyncDirectoryUsage: requires that the item at `index - 1` has index `index`, as the start-up loop arranges. A zero index, which Python would take to mean the last item, is left out.

## Findings

| source | as written | input that shows it | evidently intended | confidence | as-written member | corrected member |
|---|---|---|---|---|---|---|
| main.py:96 | `num / float(1000 * 2) > 1` selects MB for every count above 2000 bytes | 5000 bytes: MB is chosen with divisor 10^6, so the text is "0.0 MB" | `1000 ** 2`, matching the divisor on line 97, so that 5000 bytes is shown as "5.0 KB" | high; not executed | Units.AsWrittenShowsFractionOfMegabyte | Units.HumanReadableIntended |
