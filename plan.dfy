/**
  The command lines of the update command's phases: the preserved paths, the
  backup lines (clear and recreate the staging directory, then copy each path
  into it), the restore lines (copy each path back into its parent directory),
  and the fixed lists of the git, composer and asset phases.
 */
module Plan {
  import opened Paths
  import opened Shell

  /** The paths, relative to the application root, kept across the update. */
  const Preserved: seq<string> :=
    [".env", "laravel-echo-server.json", "config", "public/files", "resources/views/emails"]

  /** Laravel's `base_path(rel)`: the application root, then the relative path when there is one. */
  function BasePath(root: string, rel: string): string
  {
    if rel == "" then root else Join(root, rel)
  }

  /** Where the backup of the relative path `p` is kept inside the staging directory. */
  function StagedPath(staging: string, p: string): string
  {
    Join(staging, p)
  }

  /** The directories the backup creates, in creation order: the staging root and three subdirectories. */
  function StagingDirs(staging: string): seq<string>
  {
    [staging, Join(staging, "public"), Join(staging, "resources"), Join(staging, "resources/views")]
  }

  /** The first lines of the backup: remove the staging directory, then create each staging directory. */
  function BackupPrefix(staging: string): seq<string>
  {
    var dirs := StagingDirs(staging);
    [Render(Remove(staging)),
     Render(MakeDir(dirs[0])), Render(MakeDir(dirs[1])), Render(MakeDir(dirs[2])), Render(MakeDir(dirs[3]))]
  }

  /** The backup line for one path: copy it from the application root to the same place under staging. */
  function BackupCopy(root: string, staging: string, p: string): string
  {
    Render(Copy(BasePath(root, p), StagedPath(staging, p)))
  }

  function BackupCopies(root: string, staging: string, paths: seq<string>): seq<string>
  {
    seq(|paths|, k requires 0 <= k < |paths| => BackupCopy(root, staging, paths[k]))
  }

  /** Every line the backup phase issues, in order. */
  function BackupPlan(root: string, staging: string, paths: seq<string>): seq<string>
  {
    BackupPrefix(staging) + BackupCopies(root, staging, paths)
  }

  /** The directory a path is restored into: `base_path(dirname(p) . DIRECTORY_SEPARATOR)`. */
  function RestoreTarget(root: string, p: string): string
  {
    BasePath(root, Dirname(p) + [Separator])
  }

  /** The restore line for one path: copy its staged backup into its parent directory. */
  function RestoreCopy(root: string, staging: string, p: string): string
  {
    Render(Copy(StagedPath(staging, p), RestoreTarget(root, p)))
  }

  /** Every line the restore phase issues, in order. */
  function RestorePlan(root: string, staging: string, paths: seq<string>): seq<string>
  {
    seq(|paths|, k requires 0 <= k < |paths| => RestoreCopy(root, staging, paths[k]))
  }

  /** Discard local edits, switch to master and make it match the remote exactly. */
  const GitCommands: seq<string> :=
    ["git stash", "git checkout master", "git fetch origin", "git reset --hard origin/master", "git pull origin master"]

  const ComposerCommands: seq<string> := ["composer install"]

  const CompileCommands: seq<string> := ["npm install", "npm run prod"]

  /** Taking one more path adds its backup copy at the end. */
  lemma BackupCopiesSnoc(root: string, staging: string, paths: seq<string>, i: nat)
    requires i < |paths|
    ensures BackupCopies(root, staging, paths[..i + 1]) ==
      BackupCopies(root, staging, paths[..i]) + [BackupCopy(root, staging, paths[i])]
  {
  }

  /** Taking one more path adds its restore copy at the end. */
  lemma RestorePlanSnoc(root: string, staging: string, paths: seq<string>, i: nat)
    requires i < |paths|
    ensures RestorePlan(root, staging, paths[..i + 1]) ==
      RestorePlan(root, staging, paths[..i]) + [RestoreCopy(root, staging, paths[i])]
  {
  }

  /**
    Where `cp -Rfp source dir/` puts its copy when `dir/` names an existing
    directory: inside it, under the last component of the source.
   */
  function CopyInto(dir: string, source: string): string
  {
    dir + Basename(source)
  }

  lemma WordJoin(a: string, b: string)
    requires Word(a) && Word(b)
    ensures Word(Join(a, b))
  {
    assert Plain(Separator);
    forall c | c in Join(a, b) ensures Plain(c) {
      assert c in a || c == Separator || c in b;
    }
  }

  /** The restore target of a plain-word path is a plain word. */
  lemma WordRestoreTarget(root: string, p: string)
    requires Word(root) && Word(p)
    ensures Word(RestoreTarget(root, p))
  {
    var d := Dirname(p);
    assert d == "." || d == p[..|d|];
    assert Word(d + [Separator]) by {
      forall c | c in d + [Separator] ensures Plain(c) {
        assert c in d || c == Separator;
        assert c in d ==> c == '.' || c in p;
      }
    }
    WordJoin(root, d + [Separator]);
  }

  /** The staging paths are the staging root and subdirectories of it. */
  lemma WordStagingDirs(staging: string)
    requires Word(staging)
    ensures forall d :: d in StagingDirs(staging) ==> Word(d)
  {
    WordJoin(staging, "public");
    WordJoin(staging, "resources");
    WordJoin(staging, "resources/views");
  }

  /**
    The backup starts with exactly five lines: remove the staging directory,
    then create it and its subdirectories public, resources and
    resources/views; one copy per path follows.
   */
  lemma BackupPrefixShape(root: string, staging: string, paths: seq<string>)
    requires Word(staging)
    ensures |BackupPlan(root, staging, paths)| == 5 + |paths|
    ensures Parse(BackupPlan(root, staging, paths)[0]) == Remove(staging)
    ensures forall k :: 1 <= k < 5 ==>
      Parse(BackupPlan(root, staging, paths)[k]) == MakeDir(StagingDirs(staging)[k - 1])
  {
    var dirs := StagingDirs(staging);
    WordStagingDirs(staging);
    ParseRender(Remove(staging));
    ParseRender(MakeDir(dirs[0]));
    ParseRender(MakeDir(dirs[1]));
    ParseRender(MakeDir(dirs[2]));
    ParseRender(MakeDir(dirs[3]));
  }

  /**
    Every staging subdirectory is created after its parent: public and
    resources directly under the staging root, views under resources.
   */
  lemma StagingDirsParentsFirst(staging: string)
    ensures var dirs := StagingDirs(staging);
      Dirname(dirs[1]) == dirs[0] && Dirname(dirs[2]) == dirs[0] && Dirname(dirs[3]) == dirs[2]
  {
    var views := Join("resources", "views");
    assert views == "resources/views";
    assert StagingDirs(staging) == [staging, Join(staging, "public"), Join(staging, "resources"), Join(staging, views)];
    ParentsFirst(staging, "public", "resources", "views");
  }

  /** The parents of `a`, `b` and `b/c` under `staging`, for names without separators. */
  lemma ParentsFirst(staging: string, a: string, b: string, c: string)
    requires forall i :: 0 <= i < |a| ==> a[i] != Separator
    requires forall i :: 0 <= i < |b| ==> b[i] != Separator
    requires forall i :: 0 <= i < |c| ==> c[i] != Separator
    ensures Dirname(Join(staging, a)) == staging && Dirname(Join(staging, b)) == staging
    ensures Dirname(Join(staging, Join(b, c))) == Join(staging, b)
  {
    SubdirParent(staging, a);
    SubdirParent(staging, b);
    NestedSubdirParent(staging, b, c);
  }

  /** A staging subdirectory named without separators has the staging root as parent. */
  lemma SubdirParent(staging: string, name: string)
    requires forall i :: 0 <= i < |name| ==> name[i] != Separator
    ensures Dirname(Join(staging, name)) == staging
  {
    DirnameOfJoin(staging, name);
  }

  /** `dir/name` under staging has `dir` under staging as parent. */
  lemma NestedSubdirParent(staging: string, dir: string, name: string)
    requires forall i :: 0 <= i < |name| ==> name[i] != Separator
    ensures Dirname(Join(staging, Join(dir, name))) == Join(staging, dir)
  {
    assert Join(staging, Join(dir, name)) == Join(Join(staging, dir), name);
    DirnameOfJoin(Join(staging, dir), name);
  }

  /**
    After the prefix the backup issues one copy per path, in list order, from
    the path under the application root to the same path under staging.
   */
  lemma BackupCopiesShape(root: string, staging: string, paths: seq<string>)
    requires Word(root) && Word(staging)
    requires forall p :: p in paths ==> Word(p)
    ensures |BackupPlan(root, staging, paths)| == 5 + |paths|
    ensures forall k :: 0 <= k < |paths| ==>
      Parse(BackupPlan(root, staging, paths)[5 + k]) == Copy(BasePath(root, paths[k]), StagedPath(staging, paths[k]))
  {
    forall k | 0 <= k < |paths|
      ensures Parse(BackupPlan(root, staging, paths)[5 + k]) == Copy(BasePath(root, paths[k]), StagedPath(staging, paths[k]))
    {
      assert paths[k] in paths;
      assert BackupPlan(root, staging, paths)[5 + k] == BackupCopy(root, staging, paths[k]);
      BackupCopyReads(root, staging, paths[k]);
    }
  }

  /** The backup line of a plain-word path reads back as its copy. */
  lemma BackupCopyReads(root: string, staging: string, p: string)
    requires Word(root) && Word(staging) && Word(p)
    ensures Parse(BackupCopy(root, staging, p)) == Copy(BasePath(root, p), StagedPath(staging, p))
  {
    WordJoin(root, p);
    WordJoin(staging, p);
    ParseRender(Copy(BasePath(root, p), StagedPath(staging, p)));
  }

  /**
    The restore issues one copy per path, in list order, from the staged
    backup into the path's parent directory under the application root.
   */
  lemma RestorePlanShape(root: string, staging: string, paths: seq<string>)
    requires Word(root) && Word(staging)
    requires forall p :: p in paths ==> Word(p)
    ensures |RestorePlan(root, staging, paths)| == |paths|
    ensures forall k :: 0 <= k < |paths| ==>
      Parse(RestorePlan(root, staging, paths)[k]) == Copy(StagedPath(staging, paths[k]), RestoreTarget(root, paths[k]))
  {
    forall k | 0 <= k < |paths|
      ensures Parse(RestorePlan(root, staging, paths)[k]) == Copy(StagedPath(staging, paths[k]), RestoreTarget(root, paths[k]))
    {
      assert paths[k] in paths;
      RestoreCopyReads(root, staging, paths[k]);
    }
  }

  /** The restore line of a plain-word path reads back as its copy. */
  lemma RestoreCopyReads(root: string, staging: string, p: string)
    requires Word(root) && Word(staging) && Word(p)
    ensures Parse(RestoreCopy(root, staging, p)) == Copy(StagedPath(staging, p), RestoreTarget(root, p))
  {
    WordJoin(staging, p);
    WordRestoreTarget(root, p);
    ParseRender(Copy(StagedPath(staging, p), RestoreTarget(root, p)));
  }

  /**
    Restore walks the paths in the same order as backup, and the k-th restore
    copy reads exactly what the k-th backup copy wrote.
   */
  lemma RestoreReadsBackup(root: string, staging: string, paths: seq<string>)
    requires Word(root) && Word(staging)
    requires forall p :: p in paths ==> Word(p)
    ensures |RestorePlan(root, staging, paths)| + 5 == |BackupPlan(root, staging, paths)|
    ensures forall k :: 0 <= k < |paths| ==>
      Parse(RestorePlan(root, staging, paths)[k]).Copy? &&
      Parse(BackupPlan(root, staging, paths)[5 + k]).Copy? &&
      Parse(RestorePlan(root, staging, paths)[k]).source == Parse(BackupPlan(root, staging, paths)[5 + k]).target
  {
    BackupCopiesShape(root, staging, paths);
    RestorePlanShape(root, staging, paths);
  }

  /**
    Copying the staged backup of `p` into its restore target puts it back at
    `p` under the application root: exactly there when `p` has a parent
    directory, and through the "." entry of the root otherwise.
   */
  lemma RestoreLanding(root: string, staging: string, p: string)
    ensures Separator in p ==> CopyInto(RestoreTarget(root, p), StagedPath(staging, p)) == BasePath(root, p)
    ensures Separator !in p ==> CopyInto(RestoreTarget(root, p), StagedPath(staging, p)) == Join(Join(root, "."), p)
  {
    var d, b := Dirname(p), Basename(p);
    var landed := CopyInto(RestoreTarget(root, p), StagedPath(staging, p));
    assert landed == Join(root, d + [Separator]) + b by {
      BasenameOfJoin(staging, p);
    }
    JoinIntoDir(root, d, b);
    DirnameJoinsBasename(p);
    if Separator in p {
      assert landed == Join(root, p) && p != [];
    } else {
      assert landed == Join(root, Join(".", p));
    }
  }

  /** Naming `b` inside the directory `root/d/` names `d/b` inside `root`. */
  lemma JoinIntoDir(root: string, d: string, b: string)
    ensures Join(root, d + [Separator]) + b == Join(root, Join(d, b))
  {
  }

  /** A staged path's parent is the staging root, or the staged parent of the path. */
  lemma StagedParent(staging: string, p: string)
    ensures Separator !in p ==> Dirname(StagedPath(staging, p)) == staging
    ensures Separator in p ==> Dirname(StagedPath(staging, p)) == Join(staging, Dirname(p))
  {
    if Separator in p {
      DirnameJoinsBasename(p);
      assert StagedPath(staging, p) == Join(Join(staging, Dirname(p)), Basename(p));
      DirnameOfJoin(Join(staging, Dirname(p)), Basename(p));
    } else {
      DirnameOfJoin(staging, p);
    }
  }

  /** The preserved paths are distinct plain words. */
  lemma PreservedWellFormed()
    ensures forall p :: p in Preserved ==> Word(p)
    ensures forall i, j :: 0 <= i < j < |Preserved| ==> Preserved[i] != Preserved[j]
  {
    forall k | 0 <= k < |Preserved| ensures Word(Preserved[k]) {
      var p := Preserved[k];
      forall c | c in p ensures Plain(c) {
        assert exists i :: 0 <= i < |p| && p[i] == c;
      }
    }
  }

  /**
    Each preserved path lies directly in the application root or in one of
    the parents the backup recreates under staging.
   */
  lemma PreservedParents()
    ensures forall k :: 0 <= k < 3 ==> Separator !in Preserved[k]
    ensures Separator in Preserved[3] && Dirname(Preserved[3]) == "public"
    ensures Separator in Preserved[4] && Dirname(Preserved[4]) == "resources/views"
  {
    PreservedTopLevel();
    PreservedSpelling();
    PreservedNested(3, "public", "files");
    PreservedNested(4, "resources/views", "emails");
  }

  /** The two nested preserved paths, spelled as a directory and a name. */
  lemma PreservedSpelling()
    ensures Preserved[3] == Join("public", "files") && Separator !in "files"
    ensures Preserved[4] == Join("resources/views", "emails") && Separator !in "emails"
  {
    assert Separator !in "files" by { NoSeparatorAt("files"); }
    assert Separator !in "emails" by { NoSeparatorAt("emails"); }
  }

  /** The first three preserved paths lie directly in the application root. */
  lemma PreservedTopLevel()
    ensures forall k :: 0 <= k < 3 ==> Separator !in Preserved[k]
  {
    assert Separator !in Preserved[0] by { NoSeparatorAt(Preserved[0]); }
    assert Separator !in Preserved[1] by { NoSeparatorAt(Preserved[1]); }
    assert Separator !in Preserved[2] by { NoSeparatorAt(Preserved[2]); }
  }

  /** The preserved path at `k` is `name` inside `dir`. */
  lemma PreservedNested(k: nat, dir: string, name: string)
    requires k < |Preserved| && Preserved[k] == Join(dir, name) && Separator !in name
    ensures Separator in Preserved[k] && Dirname(Preserved[k]) == dir
  {
    DirnameOfJoin(dir, name);
    assert Preserved[k][|dir|] == Separator;
  }

  /**
    The copies of the command's own list: the k-th backup copy takes `root/p`
    to `S/p`, and the k-th restore copy takes `S/p` back into
    `root/dirname(p)/`.
   */
  lemma PreservedCopies(root: string, staging: string)
    requires Word(root) && Word(staging)
    ensures |BackupPlan(root, staging, Preserved)| == 10 && |RestorePlan(root, staging, Preserved)| == 5
    ensures forall k :: 0 <= k < |Preserved| ==>
      Parse(BackupPlan(root, staging, Preserved)[5 + k]) == Copy(BasePath(root, Preserved[k]), StagedPath(staging, Preserved[k])) &&
      Parse(RestorePlan(root, staging, Preserved)[k]) == Copy(StagedPath(staging, Preserved[k]), RestoreTarget(root, Preserved[k]))
  {
    PreservedWellFormed();
    BackupCopiesShape(root, staging, Preserved);
    RestorePlanShape(root, staging, Preserved);
  }

  /**
    Each restore copy of the command's own list lands back where its backup
    was taken: at `root/p`, through the "." entry of the root for the three
    top-level paths.
   */
  lemma PreservedLandings(root: string, staging: string)
    ensures forall k :: 0 <= k < 3 ==>
      CopyInto(RestoreTarget(root, Preserved[k]), StagedPath(staging, Preserved[k])) == Join(Join(root, "."), Preserved[k])
    ensures forall k :: 3 <= k < |Preserved| ==>
      CopyInto(RestoreTarget(root, Preserved[k]), StagedPath(staging, Preserved[k])) == BasePath(root, Preserved[k])
  {
    PreservedParents();
    LandingsSplit(root, staging, Preserved, 3);
  }

  /** The landings of a list whose first `n` paths are top-level and whose others are nested. */
  lemma LandingsSplit(root: string, staging: string, paths: seq<string>, n: nat)
    requires n <= |paths|
    requires forall k :: 0 <= k < n ==> Separator !in paths[k]
    requires forall k :: n <= k < |paths| ==> Separator in paths[k]
    ensures forall k :: 0 <= k < n ==>
      CopyInto(RestoreTarget(root, paths[k]), StagedPath(staging, paths[k])) == Join(Join(root, "."), paths[k])
    ensures forall k :: n <= k < |paths| ==>
      CopyInto(RestoreTarget(root, paths[k]), StagedPath(staging, paths[k])) == BasePath(root, paths[k])
  {
    forall k | 0 <= k < |paths|
      ensures Separator !in paths[k] ==>
        CopyInto(RestoreTarget(root, paths[k]), StagedPath(staging, paths[k])) == Join(Join(root, "."), paths[k])
      ensures Separator in paths[k] ==>
        CopyInto(RestoreTarget(root, paths[k]), StagedPath(staging, paths[k])) == BasePath(root, paths[k])
    {
      RestoreLanding(root, staging, paths[k]);
    }
  }

  /** A string none of whose positions holds the separator does not contain it. */
  lemma NoSeparatorAt(s: string)
    requires forall i :: 0 <= i < |s| ==> s[i] != Separator
    ensures Separator !in s
  {
  }

  /**
    The parent directory of every backup copy's target is created by the
    backup prefix, before any copy runs.
   */
  lemma BackupTargetsHaveParents(root: string, staging: string)
    requires Word(staging)
    ensures forall k :: 0 <= k < |Preserved| ==>
      (exists j :: 1 <= j < 5 &&
        Parse(BackupPlan(root, staging, Preserved)[j]) == MakeDir(Dirname(StagedPath(staging, Preserved[k]))))
  {
    var plan := BackupPlan(root, staging, Preserved);
    BackupPrefixShape(root, staging, Preserved);
    PreservedParents();
    forall k | 0 <= k < |Preserved|
      ensures exists j :: 1 <= j < 5 && Parse(plan[j]) == MakeDir(Dirname(StagedPath(staging, Preserved[k])))
    {
      var p := Preserved[k];
      StagedParent(staging, p);
      if k < 3 {
        assert Parse(plan[1]) == MakeDir(Dirname(StagedPath(staging, p)));
      } else if k == 3 {
        assert Parse(plan[2]) == MakeDir(Dirname(StagedPath(staging, p)));
      } else {
        assert Parse(plan[4]) == MakeDir(Dirname(StagedPath(staging, p)));
      }
    }
  }
}
