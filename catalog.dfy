/** The directory catalog built at start-up (main.py lines 19-62): the root
    directories of the four storage groups, from the listings of the home
    directory, of C:\ and of /usr. os.listdir and Path.home are inputs. */
module Catalog {

  datatype Option<T> = None | Some(value: T)

  /** list.remove of a name the listing does not hold raises ValueError. */
  datatype CatalogError = ValueError(missing: string)

  datatype Result<T> = Ok(value: T) | Err(error: CatalogError)

  /** os.name == "nt" or anything else. */
  datatype Platform = Nt | Posix

  /** The four directory lists main.py hands to its storage items:
      "System", "Applications", "User data" and "My files". */
  datatype Groups = Groups(sysDirs: seq<string>, appDirs: seq<string>,
                           tempDirs: seq<string>, userDirs: seq<string>)

  const WindowsRoot: string := "C:\\"
  const PosixRoot: string := "/"

  /** A directory listing names each entry once. */
  predicate Distinct(s: seq<string>)
  {
    forall i, j :: 0 <= i < j < |s| ==> s[i] != s[j]
  }

  /** The position of the first occurrence of `x` (list.index). */
  function FirstIndex(s: seq<string>, x: string): (i: nat)
    requires x in s
    ensures i < |s| && s[i] == x && x !in s[..i]
  {
    if s[0] == x then 0
    else
      var j := FirstIndex(s[1..], x);
      assert s[..j + 1] == [s[0]] + s[1..][..j];
      j + 1
  }

  /** list.remove: drop the first occurrence of `x`, or fail when there is none. */
  function RemoveFirst(s: seq<string>, x: string): (r: Option<seq<string>>)
    ensures r.None? <==> x !in s
    ensures r.Some? ==> exists i :: 0 <= i < |s| && s[i] == x && x !in s[..i]
                                  && r.value == s[..i] + s[i + 1..]
    ensures r.Some? ==> multiset(r.value) == multiset(s) - multiset{x}
  {
    if x in s then
      var i := FirstIndex(s, x);
      assert s == s[..i] + [s[i]] + s[i + 1..];
      Some(s[..i] + s[i + 1..])
    else None
  }

  /** The entries of `s` other than `x`, in order. */
  function Without(s: seq<string>, x: string): (r: seq<string>)
    ensures forall y :: y in r <==> y in s && y != x
    ensures |r| <= |s|
  {
    if s == [] then []
    else (if s[0] == x then [] else [s[0]]) + Without(s[1..], x)
  }

  /** Each entry of `s` with `prefix` in front of it. */
  function Prefixed(prefix: string, s: seq<string>): (r: seq<string>)
    ensures |r| == |s|
    ensures forall k :: 0 <= k < |s| ==> r[k] == prefix + s[k]
  {
    if s == [] then [] else [prefix + s[0]] + Prefixed(prefix, s[1..])
  }

  /** The "/usr/" entries of the POSIX system group: every entry of the /usr
      listing other than share and local, in listing order. */
  function UsrSystemDirs(usrListing: seq<string>): (r: seq<string>)
    ensures |r| <= |usrListing|
    ensures forall k :: 0 <= k < |r| ==> "/usr/" <= r[k]
  {
    if usrListing == [] then []
    else
      var item := usrListing[|usrListing| - 1];
      UsrSystemDirs(usrListing[..|usrListing| - 1])
        + (if item != "share" && item != "local" then ["/usr/" + item] else [])
  }

  // ---------------------------------------------------------------------------
  // Lemmas

  /** On a listing that names `x` once, list.remove drops exactly the
      entries equal to `x`. */
  lemma RemoveFirstDistinct(s: seq<string>, x: string)
    requires Distinct(s) && x in s
    ensures RemoveFirst(s, x) == Some(Without(s, x))
  {
    var i := FirstIndex(s, x);
    var before, after := s[..i], s[i + 1..];
    assert s == before + [x] + after;
    assert x !in after by {
      forall k | 0 <= k < |after| ensures after[k] != x {
        assert after[k] == s[i + 1 + k];
      }
    }
    WithoutSingle(before, x, after);
    assert RemoveFirst(s, x) == Some(before + after);
  }

  lemma WithoutSingle(before: seq<string>, x: string, after: seq<string>)
    requires x !in before && x !in after
    ensures Without(before + [x] + after, x) == before + after
  {
    var mid := before + [x];
    WithoutAppend(mid, after, x);
    WithoutAppend(before, [x], x);
    WithoutAbsent(before, x);
    WithoutAbsent(after, x);
    assert Without([x], x) == [] by {
      assert [x][1..] == [];
    }
    assert Without(mid, x) == before;
  }

  /** Removing one name keeps every other name a listing holds. */
  lemma RemoveFirstKeeps(s: seq<string>, x: string, y: string)
    requires x in s && y != x
    ensures y in RemoveFirst(s, x).value <==> y in s
  {
    var r := RemoveFirst(s, x).value;
    assert y in multiset(r) <==> y in multiset(s);
  }

  lemma {:induction false} WithoutAppend(a: seq<string>, b: seq<string>, x: string)
    ensures Without(a + b, x) == Without(a, x) + Without(b, x)
  {
    if a == [] {
      assert a + b == b;
    } else {
      assert (a + b)[1..] == a[1..] + b;
      WithoutAppend(a[1..], b, x);
    }
  }

  lemma {:induction false} WithoutAbsent(s: seq<string>, x: string)
    requires x !in s
    ensures Without(s, x) == s
  {
    if s != [] {
      WithoutAbsent(s[1..], x);
    }
  }

  lemma {:induction false} WithoutDistinct(s: seq<string>, x: string)
    requires Distinct(s)
    ensures Distinct(Without(s, x))
  {
    if s != [] {
      WithoutDistinct(s[1..], x);
      var rest := Without(s[1..], x);
      assert s[0] !in rest;
    }
  }

  /** A prefix can be cancelled: two prefixed names agree only when the names do. */
  lemma PrefixCancel(p: string, a: string, b: string)
    requires p + a == p + b
    ensures a == b
  {
    assert a == (p + a)[|p|..];
    assert b == (p + b)[|p|..];
  }

  lemma PrefixedMember(p: string, s: seq<string>, y: string)
    ensures p + y in Prefixed(p, s) <==> y in s
  {
    var r := Prefixed(p, s);
    if p + y in r {
      var k :| 0 <= k < |r| && r[k] == p + y;
      PrefixCancel(p, s[k], y);
    }
    if y in s {
      var k :| 0 <= k < |s| && s[k] == y;
      assert r[k] == p + y;
    }
  }

  /** Every "/usr/" entry of the system group comes from a /usr entry other
      than share and local, and every such entry gives one. */
  lemma {:induction false} UsrSystemDirsMembers(usrListing: seq<string>)
    ensures forall d :: d in UsrSystemDirs(usrListing) ==>
              exists item :: item in usrListing && item != "share" && item != "local" && d == "/usr/" + item
    ensures forall item :: item in usrListing && item != "share" && item != "local" ==>
              "/usr/" + item in UsrSystemDirs(usrListing)
  {
    if usrListing != [] {
      var init := usrListing[..|usrListing| - 1];
      assert usrListing == init + [usrListing[|usrListing| - 1]];
      UsrSystemDirsMembers(init);
    }
  }

  lemma UsrSystemDirsMember(usrListing: seq<string>, item: string)
    ensures "/usr/" + item in UsrSystemDirs(usrListing)
        <==> item in usrListing && item != "share" && item != "local"
  {
    UsrSystemDirsMembers(usrListing);
    if "/usr/" + item in UsrSystemDirs(usrListing) {
      var other :| other in usrListing && other != "share" && other != "local"
                   && "/usr/" + item == "/usr/" + other;
      PrefixCancel("/usr/", item, other);
    }
  }

  /** The POSIX system group never holds a root of the Applications or
      User data groups: /usr/local, /usr/share, /opt and /tmp are absent. */
  lemma PosixSystemAvoidsOtherRoots(usrListing: seq<string>)
    ensures "/usr/local" !in ["/etc"] + UsrSystemDirs(usrListing)
    ensures "/usr/share" !in ["/etc"] + UsrSystemDirs(usrListing)
    ensures "/opt" !in ["/etc"] + UsrSystemDirs(usrListing)
    ensures "/tmp" !in ["/etc"] + UsrSystemDirs(usrListing)
  {
    UsrSystemDirsMember(usrListing, "local");
    UsrSystemDirsMember(usrListing, "share");
    assert "/usr/local" == "/usr/" + "local";
    assert "/usr/share" == "/usr/" + "share";
    UsrSystemDirsMembers(usrListing);
    forall d | d in UsrSystemDirs(usrListing)
      ensures |d| >= 5
    {
      var item :| item in usrListing && item != "share" && item != "local" && d == "/usr/" + item;
    }
  }

  // ---------------------------------------------------------------------------
  // The loops of the catalog code

  /** `for i in range(len(dirs)): dirs[i] = prefix + dirs[i]`. */
  method PrefixEach(prefix: string, dirs: seq<string>) returns (r: seq<string>)
    ensures |r| == |dirs|
    ensures forall k :: 0 <= k < |dirs| ==> r[k] == prefix + dirs[k]
  {
    r := dirs;
    for i := 0 to |r|
      invariant |r| == |dirs|
      invariant forall k :: 0 <= k < i ==> r[k] == prefix + dirs[k]
      invariant forall k :: i <= k < |r| ==> r[k] == dirs[k]
    {
      r := r[i := prefix + r[i]];
    }
  }

  lemma PrefixEachStarts(prefix: string, dirs: seq<string>, r: seq<string>)
    requires |r| == |dirs|
    requires forall k :: 0 <= k < |dirs| ==> r[k] == prefix + dirs[k]
    ensures forall k :: 0 <= k < |r| ==> prefix <= r[k]
  {
    forall k | 0 <= k < |r| ensures prefix <= r[k] {
      assert r[k][..|prefix|] == prefix;
    }
  }

  /** POSIX sys_dirs: "etc" prefixed with the root, then "/usr/" + item for
      each /usr entry other than share and local. */
  method PosixSysDirs(usrListing: seq<string>) returns (sysDirs: seq<string>)
    ensures sysDirs == ["/etc"] + UsrSystemDirs(usrListing)
  {
    sysDirs := ["etc"];
    sysDirs := PrefixEach(PosixRoot, sysDirs);
    assert PosixRoot + "etc" == "/etc";
    for i := 0 to |usrListing|
      invariant sysDirs == ["/etc"] + UsrSystemDirs(usrListing[..i])
    {
      var item := usrListing[i];
      if item != "share" && item != "local" {
        sysDirs := sysDirs + ["/usr/" + item];
      }
      assert usrListing[..i + 1][..i] == usrListing[..i];
    }
    assert usrListing[..|usrListing|] == usrListing;
  }

  /** POSIX user_dirs: the home listing without .local and .config, each
      entry joined to the home path. */
  method PosixUserDirs(home: string, homeListing: seq<string>) returns (r: Result<seq<string>>)
    ensures r.Err? <==> ".local" !in homeListing || ".config" !in homeListing
    ensures r.Err? ==> r.error == ValueError(if ".local" !in homeListing then ".local" else ".config")
    ensures r.Ok? ==> |r.value| == |homeListing| - 2
    ensures r.Ok? ==> forall k :: 0 <= k < |r.value| ==> home + "/" <= r.value[k]
    ensures r.Ok? && Distinct(homeListing) ==>
              r.value == Prefixed(home + "/", Without(Without(homeListing, ".local"), ".config"))
  {
    var withoutLocal := RemoveFirst(homeListing, ".local");
    if withoutLocal.None? {
      return Err(ValueError(".local"));
    }
    RemoveFirstKeeps(homeListing, ".local", ".config");
    var dirs := RemoveFirst(withoutLocal.value, ".config");
    if dirs.None? {
      return Err(ValueError(".config"));
    }
    var joined := PrefixEach(home + "/", dirs.value);
    r := Ok(joined);
    assert |multiset(withoutLocal.value)| == |homeListing| - 1;
    assert |multiset(dirs.value)| == |homeListing| - 2;
    PrefixEachStarts(home + "/", dirs.value, joined);
    if Distinct(homeListing) {
      RemoveFirstDistinct(homeListing, ".local");
      WithoutDistinct(homeListing, ".local");
      RemoveFirstDistinct(withoutLocal.value, ".config");
    }
  }

  /** Windows sys_dirs: the C:\ listing without Users, each entry prefixed
      with the root. */
  method WindowsSysDirs(rootListing: seq<string>) returns (r: Result<seq<string>>)
    ensures r.Err? <==> "Users" !in rootListing
    ensures r.Err? ==> r.error == ValueError("Users")
    ensures r.Ok? ==> |r.value| == |rootListing| - 1
    ensures r.Ok? ==> forall k :: 0 <= k < |r.value| ==> WindowsRoot <= r.value[k]
    ensures r.Ok? && Distinct(rootListing) ==> r.value == Prefixed(WindowsRoot, Without(rootListing, "Users"))
  {
    var dirs := RemoveFirst(rootListing, "Users");
    if dirs.None? {
      return Err(ValueError("Users"));
    }
    var joined := PrefixEach(WindowsRoot, dirs.value);
    r := Ok(joined);
    assert |multiset(dirs.value)| == |rootListing| - 1;
    PrefixEachStarts(WindowsRoot, dirs.value, joined);
    if Distinct(rootListing) {
      RemoveFirstDistinct(rootListing, "Users");
    }
  }

  /** The whole catalog for one platform. On POSIX the home listing is used,
      on Windows the C:\ listing; the other listings are not consulted. */
  method BuildGroups(platform: Platform, home: string, homeListing: seq<string>,
                     rootListing: seq<string>, usrListing: seq<string>)
    returns (r: Result<Groups>)
    ensures platform == Nt ==> (r.Err? <==> "Users" !in rootListing)
    ensures platform == Nt && r.Ok? ==>
              r.value.appDirs == [] && r.value.tempDirs == [] && r.value.userDirs == [home]
              && |r.value.sysDirs| == |rootListing| - 1
              && (Distinct(rootListing) ==> r.value.sysDirs == Prefixed(WindowsRoot, Without(rootListing, "Users")))
    ensures platform == Posix ==> (r.Err? <==> ".local" !in homeListing || ".config" !in homeListing)
    ensures platform == Posix && r.Ok? ==>
              r.value.appDirs == ["/usr/local", "/usr/share", home + "/.local", "/opt"]
              && r.value.tempDirs == ["/tmp", home + "/.config"]
              && r.value.sysDirs == ["/etc"] + UsrSystemDirs(usrListing)
              && |r.value.userDirs| == |homeListing| - 2
              && (Distinct(homeListing) ==>
                    r.value.userDirs == Prefixed(home + "/", Without(Without(homeListing, ".local"), ".config")))
  {
    if platform == Nt {
      var sys := WindowsSysDirs(rootListing);
      if sys.Err? {
        return Err(sys.error);
      }
      r := Ok(Groups(sys.value, [], [], [home]));
    } else {
      var app := ["/usr/local", "/usr/share", home + "/.local", "/opt"];
      var user := PosixUserDirs(home, homeListing);
      if user.Err? {
        return Err(user.error);
      }
      var temp := ["/tmp", home + "/.config"];
      var sys := PosixSysDirs(usrListing);
      r := Ok(Groups(sys, app, temp, user.value));
    }
  }

  /** On POSIX every entry of the home directory is scanned by some group:
      .local by Applications, .config by User data, the others by My files,
      which holds neither of the two. */
  lemma PosixHomeEntriesCovered(home: string, homeListing: seq<string>, g: Groups)
    requires Distinct(homeListing) && ".local" in homeListing && ".config" in homeListing
    requires g.appDirs == ["/usr/local", "/usr/share", home + "/.local", "/opt"]
    requires g.tempDirs == ["/tmp", home + "/.config"]
    requires g.userDirs == Prefixed(home + "/", Without(Without(homeListing, ".local"), ".config"))
    ensures forall n :: n in homeListing ==>
              home + "/" + n in g.userDirs || home + "/" + n in g.appDirs || home + "/" + n in g.tempDirs
    ensures home + "/.local" !in g.userDirs && home + "/.config" !in g.userDirs
  {
    var rest := Without(Without(homeListing, ".local"), ".config");
    forall n | n in homeListing
      ensures home + "/" + n in g.userDirs || home + "/" + n in g.appDirs || home + "/" + n in g.tempDirs
    {
      HomeEntryCovered(home, homeListing, rest, g, n);
    }
    HiddenEntryNotUserDir(home, rest, ".local");
    HiddenEntryNotUserDir(home, rest, ".config");
    JoinHidden(home);
  }

  /** Joining a name to the home path with "/" is the literal concatenation
      main.py writes for the two hidden directories. */
  lemma JoinHidden(home: string)
    ensures home + "/" + ".local" == home + "/.local"
    ensures home + "/" + ".config" == home + "/.config"
  {
    assert "/" + ".local" == "/.local";
    assert "/" + ".config" == "/.config";
  }

  lemma HomeEntryCovered(home: string, homeListing: seq<string>, rest: seq<string>, g: Groups, n: string)
    requires n in homeListing
    requires rest == Without(Without(homeListing, ".local"), ".config")
    requires g.appDirs == ["/usr/local", "/usr/share", home + "/.local", "/opt"]
    requires g.tempDirs == ["/tmp", home + "/.config"]
    requires g.userDirs == Prefixed(home + "/", rest)
    ensures home + "/" + n in g.userDirs || home + "/" + n in g.appDirs || home + "/" + n in g.tempDirs
  {
    if n == ".local" {
      JoinHidden(home);
      assert g.appDirs[2] == home + "/" + n;
    } else if n == ".config" {
      JoinHidden(home);
      assert g.tempDirs[1] == home + "/" + n;
    } else {
      assert n in rest;
      PrefixedMember(home + "/", rest, n);
    }
  }

  lemma HiddenEntryNotUserDir(home: string, rest: seq<string>, hidden: string)
    requires hidden !in rest
    ensures home + "/" + hidden !in Prefixed(home + "/", rest)
  {
    PrefixedMember(home + "/", rest, hidden);
  }
}
