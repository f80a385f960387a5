/**
  What a whole run of the orchestrator leaves behind, proved about the
  reference definition `Installer.Simulate` (and so, through the method's
  postcondition, about `Installer.Install`).
*/
module InstallProperties {
  import opened Wrappers
  import opened FileSystem
  import opened Exec
  import opened Install

  /** The sources of the copy loop all lie below `node_modules/app-decorators`, so a single
      name joined onto the target directory is never one of them. */
  lemma CoreApart(i: Installer, x: string, y: string)
    requires '/' !in x
    ensures Join(i.AppPath(), x) != Join(i.CoreDir(), y)
  {
    var sub := "node_modules" + "/" + AppDecoratorsPkg;
    assert Join(i.CoreDir(), y) == Join(Join(i.AppPath(), sub), y);
    NotBelow(i.AppPath(), x, sub, y);
  }

  /** Cleanup and the configuration write never touch the installed dependency's entries. */
  lemma CoreEntryKept(i: Installer, t: Tree, env: Env, data: Bytes, e: string)
    requires '/' !in i.cliName
    ensures var src := Join(i.CoreDir(), e);
            src in i.Configured(t, env, data).files ==>
              src in i.Installed(t, env).files && i.Configured(t, env, data).files[src] == i.Installed(t, env).files[src]
  {
    CoreApart(i, "package.json", e);
    CoreApart(i, i.cliName + ".json", e);
  }

  /** The copy phase of a successful run, on its own: starting from the configured filesystem,
      a completed loop leaves every listed core entry with the bytes the package manager installed. */
  lemma CopyPhaseEntries(i: Installer, t: Tree, env: Env, data: Bytes)
    requires i.Copying(t, env, data).err == None
    requires '/' !in i.cliName
    requires forall e :: e in i.Listed(env.listings) ==> '/' !in e
    ensures var r, app, core := i.Copying(t, env, data).tree, i.AppPath(), i.CoreDir();
            && r.cwd == app
            && r.dirs == t.dirs[app := DirPerm] - {i.PackageJsonPath()}
            && r.files.Keys == i.Configured(t, env, data).files.Keys + Targets(app, i.Listed(env.listings))
            && forall e :: e in i.Listed(env.listings) ==>
                 && Join(core, e) in i.Installed(t, env).files
                 && Join(app, e) in r.files
                 && r.files[Join(app, e)] == i.Installed(t, env).files[Join(core, e)]
  {
    var app, core, names := i.AppPath(), i.CoreDir(), i.Listed(env.listings);
    var start := i.Configured(t, env, data);
    var r := i.Copying(t, env, data).tree;
    assert Apart(core, app, names) by {
      forall a, b | a in names && b in names ensures Join(core, a) != Join(app, b) {
        CoreApart(i, b, a);
      }
    }
    CopyAllEvery(start, env.faults, core, app, names);
    forall e | e in names
      ensures Join(core, e) in i.Installed(t, env).files && Join(app, e) in r.files
      ensures r.files[Join(app, e)] == i.Installed(t, env).files[Join(core, e)]
    {
      CoreEntryKept(i, t, env, data, e);
    }
  }

  /** The copy phase of a successful run, for the files it does not copy: the configuration file
      keeps its content unless a core entry has its name, the manifest is back only when the
      dependency lists one, and nothing else is created or changed. */
  lemma CopyPhaseOthers(i: Installer, t: Tree, env: Env, data: Bytes)
    requires i.Copying(t, env, data).err == None
    requires '/' !in i.cliName && i.ConfigPath() != i.PackageJsonPath()
    requires forall e :: e in i.Listed(env.listings) ==> '/' !in e
    ensures var r, app, names := i.Copying(t, env, data).tree, i.AppPath(), i.Listed(env.listings);
            var installed, pkg, cfg := i.Installed(t, env), i.PackageJsonPath(), i.ConfigPath();
            && cfg in r.files
            && (i.cliName + ".json" !in names ==> r.files[cfg] == data)
            && (pkg in r.files <==> "package.json" in names)
            && r.files.Keys == (installed.files.Keys - {pkg}) + {cfg} + Targets(app, names)
            && (forall p :: p in installed.files && p != pkg && p != cfg && p !in Targets(app, names) ==> r.files[p] == installed.files[p])
  {
    var app, names := i.AppPath(), i.Listed(env.listings);
    var pkg, cfg := i.PackageJsonPath(), i.ConfigPath();
    var start := i.Configured(t, env, data);
    CopyPhaseEntries(i, t, env, data);
    assert pkg !in start.files;
    assert pkg in Targets(app, names) ==> "package.json" in names by {
      if pkg in Targets(app, names) {
        var e :| e in names && Join(app, e) == pkg;
        JoinInjective(app, e, "package.json");
      }
    }
    if i.cliName + ".json" !in names {
      assert cfg !in Targets(app, names) by {
        if cfg in Targets(app, names) {
          var e :| e in names && Join(app, e) == cfg;
          JoinInjective(app, e, i.cliName + ".json");
        }
      }
    }
  }

  /** The layout a successful run produces: the new directory is the working directory, every
      listed core entry holds the bytes the package manager installed for it, the configuration
      file holds the encoded `{name, version}` (unless a core entry of the same name replaced it),
      the generated manifest is gone unless the dependency ships one of its own, and nothing else
      was created or changed. */
  lemma SuccessLayout(i: Installer, t: Tree, env: Env)
    requires i.Simulate(t, env).outcome == Returned(1, None)
    requires '/' !in i.cliName && i.ConfigPath() != i.PackageJsonPath()
    requires forall e :: e in i.Listed(env.listings) ==> '/' !in e
    ensures var r, app, core, names := i.Simulate(t, env).tree, i.AppPath(), i.CoreDir(), i.Listed(env.listings);
            var installed, pkg, cfg := i.Installed(t, env), i.PackageJsonPath(), i.ConfigPath();
            && r.cwd == app
            && r.dirs == t.dirs[app := DirPerm] - {pkg}
            && (forall e :: e in names ==>
                  Join(core, e) in installed.files && Join(app, e) in r.files && r.files[Join(app, e)] == installed.files[Join(core, e)])
            && cfg in r.files
            && (i.cliName + ".json" !in names ==> r.files[cfg] == env.json.Stringify(Config(i.name, i.version)).value)
            && (pkg in r.files <==> "package.json" in names)
            && r.files.Keys == (installed.files.Keys - {pkg}) + {cfg} + Targets(app, names)
            && (forall p :: p in installed.files && p != pkg && p != cfg && p !in Targets(app, names) ==> r.files[p] == installed.files[p])
  {
    var data := env.json.Stringify(Config(i.name, i.version)).value;
    CopyPhaseEntries(i, t, env, data);
    CopyPhaseOthers(i, t, env, data);
  }

  /** Running the installer again after a success, with the same name, is rejected as
      "already created" and changes nothing. */
  lemma ReinstallRejected(i: Installer, t: Tree, env: Env, again: Env)
    requires i.Simulate(t, env).outcome == Returned(1, None)
    requires ChdirFault(i.AppPath()) !in again.faults
    ensures var r := i.Simulate(t, env).tree;
            i.Simulate(r, again) == Run(Returned(-1, Some(AppPathExists(i.name))), r, [])
  {
  }

  /** A failed copy stops the loop: the entries before it hold their sources' bytes,
      and the filesystem is exactly the one those copies left. */
  lemma CopyFailureKeepsEarlier(i: Installer, t: Tree, env: Env)
    requires var out := i.Simulate(t, env).outcome; out.Returned? && out.err.Some? && out.err.value.CopyFailed?
    requires forall e :: e in i.Listed(env.listings) ==> '/' !in e
    ensures env.json.Stringify(Config(i.name, i.version)).Some?
    ensures var start := i.Configured(t, env, env.json.Stringify(Config(i.name, i.version)).value);
            var names := i.Listed(env.listings);
            exists k: nat :: k < |names|
              && FailsAt(start, env.faults, i.CoreDir(), i.AppPath(), names, k)
              && i.Simulate(t, env).tree == CopyAll(start, env.faults, i.CoreDir(), i.AppPath(), names[..k]).tree
              && (forall e :: e in names[..k] ==>
                    && Join(i.CoreDir(), e) in start.files
                    && Join(i.AppPath(), e) in i.Simulate(t, env).tree.files
                    && i.Simulate(t, env).tree.files[Join(i.AppPath(), e)] == start.files[Join(i.CoreDir(), e)])
  {
    var data := env.json.Stringify(Config(i.name, i.version)).value;
    var start := i.Configured(t, env, data);
    var app, core, names := i.AppPath(), i.CoreDir(), i.Listed(env.listings);
    CopyAllStops(start, env.faults, core, app, names);
    var k: nat :| k < |names| && FailsAt(start, env.faults, core, app, names, k);
    assert Apart(core, app, names[..k]) by {
      forall a, b | a in names[..k] && b in names[..k] ensures Join(core, a) != Join(app, b) {
        CoreApart(i, b, a);
      }
    }
    CopyAllEvery(start, env.faults, core, app, names[..k]);
  }
}
