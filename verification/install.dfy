/**
  The install orchestrator: `Install.Install` scaffolds a new component
  directory `<RootPath>/<Name>` in a fixed order —

    1. validate the name (empty, or a reserved word);
    2. refuse when the target directory can already be entered;
    3. create the directory (mode 0755) and enter it;
    4. run three package-manager commands (a failure halts the process);
    5. delete the generated `package.json`;
    6. write `<CliName>.json` holding the encoded `{name, version}`;
    7. copy every entry listed in `node_modules/app-decorators` into the
       new directory, stopping at the first failed copy.

  Every step is an exit point and nothing is rolled back. `Simulate` is the
  reference definition of one run over an abstract filesystem, and the method
  `Installer.Install` does the same work step by step on the `Os` and
  `Commands` objects and is proved to agree with it.
*/
module Install {
  import opened Wrappers
  import opened FileSystem
  import opened Exec
  import opened Json

  /** The record serialized into `<CliName>.json`. */
  datatype Config = Config(name: string, version: string)

  datatype ErrKind =
    | NoModuleName
    | ReservedName(name: string)
    | AppPathExists(name: string)
    | CreateAppPathFailed(path: Path)
    | CantChangeToAppPath(path: Path)
    | CleanupFailed(path: Path)
    | StringifyFailed
    | WriteConfigFailed(path: Path)
    | CopyFailed(src: Path, dst: Path)

  /** How a call ends: the `(int, error)` pair it returns, or the process halted by `log.Fatal`. */
  datatype Outcome = Returned(code: int, err: Option<ErrKind>) | Halted

  /** The permission bits 0755 (octal) the target directory is created with. */
  const DirPerm: FileMode := 493

  const AppDecoratorsPkg := "app-decorators"

  /** The errors raised before any package-manager command is issued. */
  predicate BeforeCommands(e: ErrKind)
  {
    e.NoModuleName? || e.ReservedName? || e.AppPathExists? || e.CreateAppPathFailed? || e.CantChangeToAppPath?
  }

  predicate Mentions(s: string, w: string)
  {
    exists k :: 0 <= k <= |s| && w <= s[k..]
  }

  lemma MentionsMiddle(a: string, w: string, b: string)
    ensures Mentions(a + w + b, w)
  {
    assert w <= (a + w + b)[|a|..];
  }

  /** The texts of the errors the orchestrator makes itself. Each is the Go literal (or the
      `Sprintf` result) split into pieces around the name, so that the pieces can be matched. */
  function Message(e: ErrKind): string
    requires e.NoModuleName? || e.ReservedName? || e.AppPathExists?
  {
    match e
    case NoModuleName => "Failed: Please set module name e.g. 'appdec init --name=mymodule'"
    case ReservedName(n) => "Failed: cant install module as " + "'" + n + "'" + " because its reserved"
    case AppPathExists(n) =>
      "\nRun: " + "'" + n + "'" + " already created\nYou can delete it with '" + "appdec delete --name=" + n + "\n"
  }

  /** The "reserved" message quotes the rejected name. */
  lemma ReservedMessageQuotesName(n: string)
    ensures Mentions(Message(ReservedName(n)), "'" + n + "'")
  {
    var pre, post := "Failed: cant install module as ", " because its reserved";
    assert Message(ReservedName(n)) == pre + ("'" + n + "'") + post;
    MentionsMiddle(pre, "'" + n + "'", post);
  }

  /** The "already created" message quotes the name and says how to delete the old component. */
  lemma ExistsMessageGivesRemedy(n: string)
    ensures Mentions(Message(AppPathExists(n)), "'" + n + "'")
    ensures Mentions(Message(AppPathExists(n)), "appdec delete --name=" + n)
  {
    var m := Message(AppPathExists(n));
    var pre, mid := "\nRun: ", " already created\nYou can delete it with '";
    var hint := "appdec delete --name=" + n;
    assert m == pre + ("'" + n + "'") + (mid + hint + "\n");
    MentionsMiddle(pre, "'" + n + "'", mid + hint + "\n");
    assert m == (pre + "'" + n + "'" + mid) + hint + "\n";
    MentionsMiddle(pre + "'" + n + "'" + mid, hint, "\n");
  }

  /** Step 1 of the orchestrator: the name checks. */
  function CheckName(name: string): (err: Option<ErrKind>)
    ensures err == None <==> name != "" && name != "commands" && name != "osx"
    ensures name == "" ==> err == Some(NoModuleName)
    ensures name != "" && err != None ==> err == Some(ReservedName(name))
  {
    if name == "" then Some(NoModuleName)
    else if name == "commands" || name == "osx" then Some(ReservedName(name))
    else None
  }

  /** The collaborators' behaviour, fixed for one run: injected filesystem faults, directory listings,
      the package manager's response and the serializer. */
  datatype Env = Env(faults: set<Fault>, listings: map<Path, seq<string>>, npm: Response, json: Stringifyer<Config>)

  /** What one run does: how it ends, the filesystem it leaves, and the command lists handed to the runner. */
  datatype Run = Run(outcome: Outcome, tree: Tree, calls: seq<seq<string>>)

  /** The state of the copy loop: the filesystem so far and the first copy error, if any. */
  datatype Copy = Copy(tree: Tree, err: Option<ErrKind>)

  /** The destinations the copy loop may write. */
  function Targets(dstDir: Path, names: seq<string>): set<Path>
  {
    set e | e in names :: Join(dstDir, e)
  }

  /** The copy loop over `names`, in listing order: each `srcDir/e` is copied to `dstDir/e`
      until one copy fails. */
  function CopyAll(t: Tree, faults: set<Fault>, srcDir: Path, dstDir: Path, names: seq<string>): (c: Copy)
    ensures c.tree.dirs == t.dirs && c.tree.cwd == t.cwd
    ensures t.files.Keys <= c.tree.files.Keys <= t.files.Keys + Targets(dstDir, names)
    ensures forall p :: p in t.files && p !in Targets(dstDir, names) ==> c.tree.files[p] == t.files[p]
    ensures c.err.Some? ==> exists e :: e in names && c.err == Some(CopyFailed(Join(srcDir, e), Join(dstDir, e)))
    decreases |names|
  {
    if names == [] then Copy(t, None)
    else
      var c := CopyAll(t, faults, srcDir, dstDir, names[..|names| - 1]);
      var e := names[|names| - 1];
      var src, dst := Join(srcDir, e), Join(dstDir, e);
      if c.err.Some? then c
      else if CanCopy(c.tree, faults, src, dst) then Copy(Copied(c.tree, src, dst), None)
      else Copy(c.tree, Some(CopyFailed(src, dst)))
  }

  /** The Go struct `Install`: the inputs of one installation. */
  datatype Installer = Installer(name: string, rootPath: Path, cliName: string, version: string)
  {
    function AppPath(): Path
    {
      rootPath + "/" + name
    }

    function NpmCommands(): seq<string>
    {
      ["npm init -y", "npm install app-decorators@" + version, "npm install babel-cli@6.24.1"]
    }

    function PackageJsonPath(): Path
    {
      Join(AppPath(), "package.json")
    }

    function ConfigPath(): Path
    {
      Join(AppPath(), cliName + ".json")
    }

    /** Where the installed dependency lives: `<RootPath>/<Name>/node_modules/app-decorators`. */
    function CoreDir(): Path
    {
      Join(Join(AppPath(), "node_modules"), AppDecoratorsPkg)
    }

    /** The entries the copy loop walks: the listing, or nothing when listing fails. */
    function Listed(listings: map<Path, seq<string>>): seq<string>
    {
      if CoreDir() in listings then listings[CoreDir()] else []
    }

    /** The filesystem after step 3: the target exists and is the working directory. */
    function Entered(t: Tree): Tree
    {
      MadeDir(t, AppPath(), DirPerm).(cwd := AppPath())
    }

    /** After step 4: what the package manager wrote. */
    function Installed(t: Tree, env: Env): Tree
    {
      Ran(Entered(t), env.npm)
    }

    /** After step 5: the generated manifest is gone. */
    function Cleaned(t: Tree, env: Env): Tree
    {
      Removed(Installed(t, env), PackageJsonPath())
    }

    /** After step 6: the configuration file holds `data`. */
    function Configured(t: Tree, env: Env, data: Bytes): Tree
    {
      Written(Cleaned(t, env), ConfigPath(), data)
    }

    /** Step 7 run on the configured filesystem. */
    function Copying(t: Tree, env: Env, data: Bytes): Copy
    {
      CopyAll(Configured(t, env, data), env.faults, CoreDir(), AppPath(), Listed(env.listings))
    }

    /** Steps 1 to 3 succeeded: the name is accepted, the target did not exist, and it was made and entered. */
    predicate ReachesRunner(t: Tree, env: Env)
    {
      && CheckName(name) == None
      && !CanChdir(t, env.faults, AppPath())
      && CanMkdir(t, env.faults, AppPath())
      && CanChdir(MadeDir(t, AppPath(), DirPerm), env.faults, AppPath())
    }

    /** The reference definition of one run of `Install` from the filesystem `t`. */
    function Simulate(t: Tree, env: Env): (r: Run)
      // step 1: a bad name changes nothing and runs nothing
      ensures name == "" ==> r == Run(Returned(-1, Some(NoModuleName)), t, [])
      ensures name == "commands" || name == "osx" ==> r == Run(Returned(-1, Some(ReservedName(name))), t, [])
      // step 2: an enterable target only moves the working directory
      ensures CheckName(name) == None && CanChdir(t, env.faults, AppPath()) ==>
                r == Run(Returned(-1, Some(AppPathExists(name))), t.(cwd := AppPath()), [])
      // the return code is 1 exactly when there is no error, -1 otherwise
      ensures r.outcome.Returned? ==> (r.outcome.code == 1 <==> r.outcome.err == None)
      ensures r.outcome.Returned? ==> r.outcome.code == 1 || r.outcome.code == -1
      // the runner is called at most once, with exactly these commands in this order
      ensures r.calls == [] || r.calls == [["npm init -y", "npm install app-decorators@" + version, "npm install babel-cli@6.24.1"]]
      ensures r.calls == [] <==> r.outcome.Returned? && r.outcome.err.Some? && BeforeCommands(r.outcome.err.value)
      // step 3: a failed Mkdir changes nothing; a failed Chdir leaves only the new directory
      ensures r.outcome == Returned(-1, Some(CreateAppPathFailed(AppPath()))) ==> r.tree == t
      ensures r.outcome == Returned(-1, Some(CantChangeToAppPath(AppPath()))) ==> r.tree == MadeDir(t, AppPath(), DirPerm)
      // step 4: a failing runner halts the process before cleanup, config write and copying
      ensures r.outcome.Halted? <==> r.calls != [] && !env.npm.ok
      ensures r.outcome.Halted? ==> r.tree == Installed(t, env)
      // step 5: a failed removal leaves what the package manager wrote
      ensures r.outcome == Returned(-1, Some(CleanupFailed(PackageJsonPath()))) ==> r.tree == Installed(t, env)
      // step 6: a failed encoding or write happens after cleanup and writes nothing
      ensures r.outcome == Returned(-1, Some(StringifyFailed)) ==> r.tree == Cleaned(t, env)
      ensures r.outcome == Returned(-1, Some(WriteConfigFailed(ConfigPath()))) ==> r.tree == Cleaned(t, env)
      // step 7: success, or a copy error, only after every earlier step completed
      ensures r.outcome == Returned(1, None) || (r.outcome.Returned? && r.outcome.err.Some? && r.outcome.err.value.CopyFailed?) ==>
                && env.npm.ok
                && CanRemove(Installed(t, env), env.faults, PackageJsonPath())
                && env.json.Stringify(Config(name, version)).Some?
                && CanWrite(Cleaned(t, env), env.faults, ConfigPath())
                && var c := Copying(t, env, env.json.Stringify(Config(name, version)).value);
                   r.tree == c.tree && r.outcome.err == c.err
    {
      var app := AppPath();
      var invalid := CheckName(name);
      if invalid.Some? then Run(Returned(-1, invalid), t, [])
      else if CanChdir(t, env.faults, app) then Run(Returned(-1, Some(AppPathExists(name))), t.(cwd := app), [])
      else if !CanMkdir(t, env.faults, app) then Run(Returned(-1, Some(CreateAppPathFailed(app))), t, [])
      else if !CanChdir(MadeDir(t, app, DirPerm), env.faults, app) then
        Run(Returned(-1, Some(CantChangeToAppPath(app))), MadeDir(t, app, DirPerm), [])
      else
        var calls := [NpmCommands()];
        if !env.npm.ok then Run(Halted, Installed(t, env), calls)
        else if !CanRemove(Installed(t, env), env.faults, PackageJsonPath()) then
          Run(Returned(-1, Some(CleanupFailed(PackageJsonPath()))), Installed(t, env), calls)
        else match env.json.Stringify(Config(name, version))
          case None => Run(Returned(-1, Some(StringifyFailed)), Cleaned(t, env), calls)
          case Some(data) =>
            if !CanWrite(Cleaned(t, env), env.faults, ConfigPath()) then
              Run(Returned(-1, Some(WriteConfigFailed(ConfigPath()))), Cleaned(t, env), calls)
            else
              var c := Copying(t, env, data);
              Run(if c.err == None then Returned(1, None) else Returned(-1, c.err), c.tree, calls)
    }

    /** Which failing step leads to which exit of `Simulate`, in step order. */
    lemma SimulateSteps(t: Tree, env: Env)
      ensures CheckName(name) == None && !CanChdir(t, env.faults, AppPath()) && !CanMkdir(t, env.faults, AppPath()) ==>
                Simulate(t, env).outcome == Returned(-1, Some(CreateAppPathFailed(AppPath())))
      ensures CheckName(name) == None && !CanChdir(t, env.faults, AppPath()) && CanMkdir(t, env.faults, AppPath())
                && !CanChdir(MadeDir(t, AppPath(), DirPerm), env.faults, AppPath()) ==>
                Simulate(t, env).outcome == Returned(-1, Some(CantChangeToAppPath(AppPath())))
      ensures ReachesRunner(t, env) ==> Simulate(t, env).calls == [NpmCommands()]
      ensures ReachesRunner(t, env) && !env.npm.ok ==> Simulate(t, env).outcome == Halted
      ensures ReachesRunner(t, env) && env.npm.ok && !CanRemove(Installed(t, env), env.faults, PackageJsonPath()) ==>
                Simulate(t, env).outcome == Returned(-1, Some(CleanupFailed(PackageJsonPath())))
      ensures ReachesRunner(t, env) && env.npm.ok && CanRemove(Installed(t, env), env.faults, PackageJsonPath())
                && env.json.Stringify(Config(name, version)).None? ==>
                Simulate(t, env).outcome == Returned(-1, Some(StringifyFailed))
      ensures ReachesRunner(t, env) && env.npm.ok && CanRemove(Installed(t, env), env.faults, PackageJsonPath())
                && env.json.Stringify(Config(name, version)).Some? && !CanWrite(Cleaned(t, env), env.faults, ConfigPath()) ==>
                Simulate(t, env).outcome == Returned(-1, Some(WriteConfigFailed(ConfigPath())))
      ensures ReachesRunner(t, env) && env.npm.ok && CanRemove(Installed(t, env), env.faults, PackageJsonPath())
                && env.json.Stringify(Config(name, version)).Some? && CanWrite(Cleaned(t, env), env.faults, ConfigPath()) ==>
                var c := Copying(t, env, env.json.Stringify(Config(name, version)).value);
                Simulate(t, env).outcome == (if c.err == None then Returned(1, None) else Returned(-1, c.err))
    {
    }

    /** `Install.Install`: the orchestrator, run step by step against the injected collaborators. */
    method Install(os: Os, json: Stringifyer<Config>, exec: Commands) returns (out: Outcome)
      modifies os, exec
      ensures var r := Simulate(old(os.State()), Env(os.faults, os.listings, exec.response, json));
                out == r.outcome && os.State() == r.tree && exec.calls == old(exec.calls) + r.calls
    {
      ghost var t := os.State();
      ghost var env := Env(os.faults, os.listings, exec.response, json);
      var app := AppPath();

      var invalid := CheckName(name);
      if invalid.Some? {
        return Returned(-1, invalid);
      }

      // Return when the target directory exists.
      var entered := os.Chdir(app);
      if entered {
        return Returned(-1, Some(AppPathExists(name)));
      }

      // Create it and enter it.
      var made := os.Mkdir(app, DirPerm);
      if !made {
        return Returned(-1, Some(CreateAppPathFailed(app)));
      }
      entered := os.Chdir(app);
      if !entered {
        return Returned(-1, Some(CantChangeToAppPath(app)));
      }
      assert os.State() == Entered(t);

      var ran := exec.Run(NpmCommands(), os);
      if !ran {
        return Halted;
      }

      // Cleanup.
      var removed := os.Remove(PackageJsonPath());
      if !removed {
        return Returned(-1, Some(CleanupFailed(PackageJsonPath())));
      }

      // Write the tool's own configuration file.
      var encoded := json.Stringify(Config(name, version));
      if encoded.None? {
        return Returned(-1, Some(StringifyFailed));
      }
      var written := os.WriteFile(ConfigPath(), encoded.value);
      if !written {
        return Returned(-1, Some(WriteConfigFailed(ConfigPath())));
      }

      // Copy the core files.
      var core := CoreDir();
      var names, _ := os.ReadFiles(core);
      assert names == Listed(env.listings);
      ghost var start := os.State();
      var k := 0;
      while k < |names|
        invariant 0 <= k <= |names|
        invariant CopyAll(start, os.faults, core, app, names[..k]) == Copy(os.State(), None)
        invariant exec.calls == old(exec.calls) + [NpmCommands()]
      {
        var src, dst := Join(core, names[k]), Join(app, names[k]);
        var copied := os.CopyFile(src, dst);
        assert names[..k + 1][..k] == names[..k];
        if !copied {
          CopyAllSticks(start, os.faults, core, app, names, k + 1);
          return Returned(-1, Some(CopyFailed(src, dst)));
        }
        k := k + 1;
      }
      assert names[..k] == names;
      return Returned(1, None);
    }
  }

  /** Once the copy loop has failed, later entries change nothing: they are never attempted. */
  lemma {:induction false} CopyAllSticks(t: Tree, faults: set<Fault>, srcDir: Path, dstDir: Path, names: seq<string>, k: nat)
    requires k <= |names|
    requires CopyAll(t, faults, srcDir, dstDir, names[..k]).err.Some?
    ensures CopyAll(t, faults, srcDir, dstDir, names) == CopyAll(t, faults, srcDir, dstDir, names[..k])
    decreases |names|
  {
    if k < |names| {
      var front := names[..|names| - 1];
      assert front[..k] == names[..k];
      CopyAllSticks(t, faults, srcDir, dstDir, front, k);
    } else {
      assert names[..k] == names;
    }
  }

  lemma JoinInjective(dir: Path, a: string, b: string)
    requires Join(dir, a) == Join(dir, b)
    ensures a == b
  {
    assert a == Join(dir, a)[|dir| + 1..];
    assert b == Join(dir, b)[|dir| + 1..];
  }

  /** A single name joined onto `dir` never lands inside a subdirectory `dir/sub`. */
  lemma NotBelow(dir: Path, x: string, sub: string, y: string)
    requires '/' !in x
    ensures Join(dir, x) != Join(Join(dir, sub), y)
  {
    var l, r := Join(dir, x), Join(Join(dir, sub), y);
    if |l| == |r| {
      var i := |dir| + 1 + |sub|;
      assert r[i] == '/';
      assert l[i] == x[|sub|];
    }
  }

  /** No copy source is a copy destination. */
  predicate Apart(srcDir: Path, dstDir: Path, names: seq<string>)
  {
    forall a, b :: a in names && b in names ==> Join(srcDir, a) != Join(dstDir, b)
  }

  /** A completed copy loop leaves every listed entry at its destination with its source's bytes. */
  lemma {:induction false} CopyAllEvery(t: Tree, faults: set<Fault>, srcDir: Path, dstDir: Path, names: seq<string>)
    requires CopyAll(t, faults, srcDir, dstDir, names).err == None
    requires Apart(srcDir, dstDir, names)
    ensures forall e :: e in names ==>
              && Join(srcDir, e) in t.files
              && Join(dstDir, e) in CopyAll(t, faults, srcDir, dstDir, names).tree.files
              && CopyAll(t, faults, srcDir, dstDir, names).tree.files[Join(dstDir, e)] == t.files[Join(srcDir, e)]
    decreases |names|
  {
    if names != [] {
      var front, last := names[..|names| - 1], names[|names| - 1];
      assert Apart(srcDir, dstDir, front) by {
        forall a, b | a in front && b in front ensures Join(srcDir, a) != Join(dstDir, b) {
          assert a in names && b in names;
        }
      }
      CopyAllEvery(t, faults, srcDir, dstDir, front);
      var c := CopyAll(t, faults, srcDir, dstDir, front);
      var src, dst := Join(srcDir, last), Join(dstDir, last);
      assert src !in Targets(dstDir, front) by {
        forall b | b in front ensures src != Join(dstDir, b) {
          assert b in names;
        }
      }
      assert CanCopy(c.tree, faults, src, dst);
      assert src in t.files && c.tree.files[src] == t.files[src];
      var r := Copied(c.tree, src, dst);
      assert CopyAll(t, faults, srcDir, dstDir, names).tree == r;
      forall e | e in names
        ensures Join(srcDir, e) in t.files && Join(dstDir, e) in r.files && r.files[Join(dstDir, e)] == t.files[Join(srcDir, e)]
      {
        if e != last {
          assert e in front;
          if Join(dstDir, e) == dst {
            JoinInjective(dstDir, e, last);
          }
        }
      }
    }
  }

  /** A failed copy loop failed at one entry `k`: entries before it were all copied,
      the filesystem is the one they left, and no later entry was attempted. */
  predicate FailsAt(t: Tree, faults: set<Fault>, srcDir: Path, dstDir: Path, names: seq<string>, k: nat)
    requires k < |names|
  {
    var c := CopyAll(t, faults, srcDir, dstDir, names[..k]);
    var src, dst := Join(srcDir, names[k]), Join(dstDir, names[k]);
    && c.err == None
    && !CanCopy(c.tree, faults, src, dst)
    && CopyAll(t, faults, srcDir, dstDir, names) == Copy(c.tree, Some(CopyFailed(src, dst)))
  }

  lemma {:induction false} CopyAllStops(t: Tree, faults: set<Fault>, srcDir: Path, dstDir: Path, names: seq<string>)
    requires CopyAll(t, faults, srcDir, dstDir, names).err.Some?
    ensures exists k: nat :: k < |names| && FailsAt(t, faults, srcDir, dstDir, names, k)
    decreases |names|
  {
    var front := names[..|names| - 1];
    if CopyAll(t, faults, srcDir, dstDir, front).err.Some? {
      CopyAllStops(t, faults, srcDir, dstDir, front);
      var k: nat :| k < |front| && FailsAt(t, faults, srcDir, dstDir, front, k);
      assert front[..k] == names[..k];
      assert names[k] == front[k];
      assert CopyAll(t, faults, srcDir, dstDir, names) == CopyAll(t, faults, srcDir, dstDir, front);
      assert FailsAt(t, faults, srcDir, dstDir, names, k);
    } else {
      assert names[..|names| - 1] == front;
      assert FailsAt(t, faults, srcDir, dstDir, names, |names| - 1);
    }
  }
}
