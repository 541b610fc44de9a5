/** desimage/batch.py: `ScriptMaker` writes, for every tile of a campaign whose
    coadd list holds all requested bands, a shell script that runs
    `des-make-image` and a batch-system job file that runs that script.

    The file system is modelled by a snapshot `existing` of the paths present when
    `go` starts; the effects of `go` are a list of actions (make a directory,
    write a file, remove a file if present) and the exception that stopped it,
    if any. */
module Batch {
  import opened Common
  import opened Strings
  import FileNames
  import ImageMaker

  // ===========================================================================
  // ScriptMaker.__init__

  /** The `types` argument: None, a list or tuple, or a single value. */
  datatype TypesArg = NoTypes | TypeList(list: seq<string>) | TypeScalar(single: string)

  datatype ScriptMaker = ScriptMaker(system: string, campaign: string, types: seq<string>,
                                     bands: seq<string>)

  /** `ScriptMaker(system, types, bands, campaign)`: the campaign is kept as given
      (not upper-cased), a single type is wrapped in a list. */
  function NewScriptMaker(system: string, types: TypesArg, bands: Option<seq<string>>,
                          campaign: Option<string>): (m: ScriptMaker)
    ensures m.system == system
    ensures m.campaign == (if campaign.Some? then campaign.value else ImageMaker.DefaultCampaign)
    ensures types.TypeList? ==> m.types == types.list
    ensures !types.TypeList? ==> |m.types| == 1
    ensures types.TypeScalar? ==> m.types[0] == types.single
    ensures bands.Some? ==> m.bands == bands.value
    ensures bands.None? ==> m.bands == ["g", "r", "i"]
  {
    var ts := match types
      case NoTypes => ["jpg"]
      case TypeList(list) => list
      case TypeScalar(t) => [t];
    ScriptMaker(system,
                if campaign.Some? then campaign.value else ImageMaker.DefaultCampaign,
                ts,
                if bands.Some? then bands.value else ["g", "r", "i"])
  }

  // ===========================================================================
  // Tile names: `tilenames[key[0:-2]] = ...` over the keys of the coadd list

  /** `key[0:-2]`: the key without its last two characters (empty for a shorter key). */
  function TileOf(key: string): (t: string)
    ensures |key| >= 2 ==> |t| == |key| - 2 && t == key[..|key| - 2]
    ensures |key| < 2 ==> t == ""
  {
    if |key| >= 2 then key[..|key| - 2] else ""
  }

  /** Cutting two characters undoes `"%s-%s" % (tilename, band)` for a one-letter band. */
  lemma TileOfCoaddKey(tilename: string, band: string)
    requires |band| == 1
    ensures TileOf(ImageMaker.CoaddKey(tilename, band)) == tilename
  {
    assert ImageMaker.CoaddKey(tilename, band)[..|tilename|] == tilename;
  }

  /** The keys of the dict `tilenames`, in insertion order: each tile name once, at
      its first occurrence. */
  function TileList(keys: seq<string>): seq<string>
    decreases |keys|
  {
    if keys == [] then []
    else
      var names := TileList(keys[..|keys| - 1]);
      var t := TileOf(keys[|keys| - 1]);
      if t in names then names else names + [t]
  }

  /** The first loop of `go`. */
  method TileNames(keys: seq<string>) returns (names: seq<string>)
    ensures names == TileList(keys)
  {
    names := [];
    for i := 0 to |keys|
      invariant names == TileList(keys[..i])
    {
      assert keys[..i + 1][..i] == keys[..i];
      var t := TileOf(keys[i]);
      if t !in names {
        names := names + [t];
      }
    }
    assert keys[..|keys|] == keys;
  }

  /** Every tile appears once, and exactly the tiles some key names appear. */
  lemma {:induction false} TileListSpec(keys: seq<string>)
    ensures forall i, j :: 0 <= i < j < |TileList(keys)| ==> TileList(keys)[i] != TileList(keys)[j]
    ensures forall t :: t in TileList(keys) <==> exists k :: k in keys && TileOf(k) == t
  {
    if keys != [] {
      var init := keys[..|keys| - 1];
      TileListSpec(init);
      assert keys == init + [keys[|keys| - 1]];
      forall t | exists k :: k in keys && TileOf(k) == t
        ensures t in TileList(keys)
      {
        var k :| k in keys && TileOf(k) == t;
        if k != keys[|keys| - 1] {
          assert k in init;
        }
      }
    }
  }

  // ===========================================================================
  // _bands_present and the existence test of go

  /** Every band of the tile has an entry `"tilename-band"` in the coadd list. */
  predicate AllBandsPresent(bands: seq<string>, tilename: string, keys: seq<string>) {
    forall b :: b in bands ==> ImageMaker.CoaddKey(tilename, b) in keys
  }

  /** `_bands_present`: stops at the first missing band. */
  method BandsPresent(bands: seq<string>, tilename: string, keys: seq<string>) returns (present: bool)
    ensures present <==> AllBandsPresent(bands, tilename, keys)
  {
    for i := 0 to |bands|
      invariant forall k :: 0 <= k < i ==> ImageMaker.CoaddKey(tilename, bands[k]) in keys
    {
      if ImageMaker.CoaddKey(tilename, bands[i]) !in keys {
        return false;
      }
    }
    return true;
  }

  /** The output image of the tile for this type (the type is the file extension). */
  function ImageFile(m: ScriptMaker, desdata: string, tilename: string, typ: string): string {
    FileNames.OutputFile(desdata, m.campaign, tilename, m.bands, None, typ)
  }

  /** An image path can coincide with the script path of another tile: with bands g, r, i,
      the image of type `a-gri.sh` for tile `scripts` is the script of tile `scripts-gri.a`.
      `go` tests images on the live file system, so there a script written for an earlier
      tile can decide a later one; `existing` is a snapshot and does not see it. */
  lemma ImageFileCanBeScriptFile(m: ScriptMaker, desdata: string)
    requires m.bands == ["g", "r", "i"]
    ensures ImageFile(m, desdata, "scripts", "a-gri.sh") ==
            FileNames.ScriptFile(desdata, m.campaign, "scripts-gri.a", m.bands)
  {
    assert m.bands[1..] == ["r", "i"] && m.bands[1..][1..] == ["i"];
    assert JoinWith("", ["i"]) == "i";
    assert JoinWith("", ["r", "i"]) == "ri";
    var bstr := Concat(m.bands);
    assert bstr == "gri";
    var parts := FileNames.OutputParts("scripts", m.bands, None);
    assert parts == ["scripts", bstr] && parts[1..] == [bstr];
    assert JoinWith("-", parts) == "scripts" + "-" + bstr;
    var name := FileNames.OutputName("scripts", m.bands, None, "a-gri.sh");
    assert name == "scripts" + "-" + bstr + "." + "a-gri.sh";
    assert name == "scripts-gri.a" + "-" + bstr + ".sh";
  }


  /** Some requested image of the tile does not exist yet. */
  predicate OutputMissing(m: ScriptMaker, desdata: string, tilename: string, existing: set<string>) {
    exists typ :: typ in m.types && ImageFile(m, desdata, tilename, typ) !in existing
  }

  /** The `doprint` loop of `go`: stops at the first type whose image is missing. */
  method NeedsImage(m: ScriptMaker, desdata: string, tilename: string, existing: set<string>)
    returns (doprint: bool)
    ensures doprint <==> OutputMissing(m, desdata, tilename, existing)
  {
    doprint := false;
    for i := 0 to |m.types|
      invariant forall k :: 0 <= k < i ==> ImageFile(m, desdata, tilename, m.types[k]) in existing
    {
      if ImageFile(m, desdata, tilename, m.types[i]) !in existing {
        doprint := true;
        break;
      }
    }
  }

  // ===========================================================================
  // Texts written

  /** `"%s-rgb" % tilename`. */
  function JobName(tilename: string): string {
    tilename + "-rgb"
  }

  /** The command line of the script. */
  function ScriptCommand(m: ScriptMaker, tilename: string): string {
    JoinWith(" ", ["des-make-image", "--types=" + JoinWith(",", m.types),
                   "--campaign=" + m.campaign, "--bands=" + JoinWith(",", m.bands), tilename])
  }

  /** The script text of `_write_script`, as its lines: an empty line, the command, a
      line of eight blanks, and the empty rest after the final newline. */
  function ScriptText(m: ScriptMaker, tilename: string): string {
    JoinWith("\n", ["", ScriptCommand(m, tilename), "        ", ""])
  }

  /** The job file text of `_write_wq`, as its lines: fixed blocks around the
      lines that carry the log file, the script file and the job name. */
  function WqLines(logFile: string, scriptFile: string, jobName: string): seq<string> {
    WqHead + ["    log_file=" + logFile] + WqSetup + ["    bash " + scriptFile + " &> $log_tmp"]
    + WqFinish + ["job_name: \"" + jobName + "\""] + WqTail
  }

  const WqHead: seq<string> := ["", "command: |", "    . $HOME/.bashrc", "    source activate y5color", ""]
  const WqSetup: seq<string> :=
    ["    rm -f $log_file", "", "    log_dir=$(dirname $log_file)", "    log_base=$(basename $log_file)", "",
     "    mkdir -vp $log_dir", "", "    log_tmp=\"$TMPDIR/$log_base\""]
  const WqFinish: seq<string> := ["", "    mv -vf $log_tmp $log_file", "", "mode: bynode"]
  const WqTail: seq<string> := ["        ", ""]

  function WqText(logFile: string, scriptFile: string, jobName: string): string {
    JoinWith("\n", WqLines(logFile, scriptFile, jobName))
  }

  /** No element of the list contains the character. */
  predicate FreeOf(xs: seq<string>, c: char) {
    forall k :: 0 <= k < |xs| ==> c !in xs[k]
  }

  /** The fixed words of the command line hold neither a blank nor a newline. */
  lemma FlagsFree(c: char)
    requires c == ' ' || c == '\n'
    ensures c !in "des-make-image" && c !in "--types=" && c !in "--campaign=" && c !in "--bands="
  {
  }

  /** Reading the script back: its second line split on blanks gives the program,
      and the comma lists after `--types=` and `--bands=` split back into the
      maker's types and bands, when no name holds a blank, a comma or a newline. */
  lemma ScriptTextRoundTrip(m: ScriptMaker, tilename: string)
    requires |m.types| >= 1 && |m.bands| >= 1
    requires FreeOf(m.types, ',') && FreeOf(m.types, ' ') && FreeOf(m.types, '\n')
    requires FreeOf(m.bands, ',') && FreeOf(m.bands, ' ') && FreeOf(m.bands, '\n')
    requires FreeOf([m.campaign, tilename], ' ') && FreeOf([m.campaign, tilename], '\n')
    ensures |Split(ScriptText(m, tilename), '\n')| == 4
    ensures Split(ScriptText(m, tilename), '\n')[1] == ScriptCommand(m, tilename)
    ensures var args := Split(ScriptCommand(m, tilename), ' ');
            |args| == 5 && args[0] == "des-make-image" && args[4] == tilename
            && args[1] == "--types=" + JoinWith(",", m.types) && Split(args[1][8..], ',') == m.types
            && args[2] == "--campaign=" + m.campaign
            && args[3] == "--bands=" + JoinWith(",", m.bands) && Split(args[3][8..], ',') == m.bands
  {
    var ts := JoinWith(",", m.types);
    var bs := JoinWith(",", m.bands);
    JoinAvoids(",", m.types, ' ');
    JoinAvoids(",", m.types, '\n');
    JoinAvoids(",", m.bands, ' ');
    JoinAvoids(",", m.bands, '\n');
    SplitJoin(m.types, ',');
    SplitJoin(m.bands, ',');
    assert m.campaign == [m.campaign, tilename][0] && tilename == [m.campaign, tilename][1];
    var args := ["des-make-image", "--types=" + ts, "--campaign=" + m.campaign, "--bands=" + bs, tilename];
    assert ("--types=" + ts)[8..] == ts && ("--bands=" + bs)[8..] == bs;
    FlagsFree(' ');
    FlagsFree('\n');
    assert FreeOf(args, ' ');
    assert FreeOf(args, '\n');
    SplitJoin(args, ' ');
    JoinAvoids(" ", args, '\n');
    SplitJoin(["", ScriptCommand(m, tilename), "        ", ""], '\n');
  }

  lemma WqHeadFree()
    ensures FreeOf(WqHead, '\n')
  {
    assert '\n' !in WqHead[1] && '\n' !in WqHead[2] && '\n' !in WqHead[3];
  }

  lemma WqSetupFreeFirst()
    ensures forall k :: 0 <= k < 4 ==> '\n' !in WqSetup[k]
  {
    assert '\n' !in WqSetup[0] && '\n' !in WqSetup[2] && '\n' !in WqSetup[3];
  }

  lemma WqSetupFreeLast()
    ensures forall k :: 4 <= k < 8 ==> '\n' !in WqSetup[k]
  {
    assert '\n' !in WqSetup[5] && '\n' !in WqSetup[7];
  }

  lemma WqSetupFree()
    ensures FreeOf(WqSetup, '\n')
  {
    WqSetupFreeFirst();
    WqSetupFreeLast();
  }

  lemma WqBlocksFree()
    ensures FreeOf(WqHead, '\n') && FreeOf(WqSetup, '\n') && FreeOf(WqFinish, '\n') && FreeOf(WqTail, '\n')
  {
    WqHeadFree();
    WqSetupFree();
    assert '\n' !in WqFinish[1] && '\n' !in WqFinish[3] && '\n' !in WqTail[0];
  }

  /** Reading the job file back: its lines are the template's, carrying the log file,
      the script file and the job name, when none of them holds a newline. */
  lemma WqTextFields(logFile: string, scriptFile: string, jobName: string)
    requires '\n' !in logFile && '\n' !in scriptFile && '\n' !in jobName
    ensures var lines := Split(WqText(logFile, scriptFile, jobName), '\n');
            |lines| == 22
            && lines[5] == "    log_file=" + logFile
            && lines[14] == "    bash " + scriptFile + " &> $log_tmp"
            && lines[19] == "job_name: \"" + jobName + "\""
  {
    var lines := WqLines(logFile, scriptFile, jobName);
    WqBlocksFree();
    assert FreeOf(lines, '\n');
    SplitJoin(lines, '\n');
  }

  // ===========================================================================
  // Actions of go

  /** An effect on the file system; `RemoveFile` removes the path if it exists. */
  datatype Action = MakeDir(path: string) | WriteFile(path: string, text: string) | RemoveFile(path: string)

  /** `_write_script`. */
  function WriteScript(m: ScriptMaker, desdata: string, tilename: string): Action {
    WriteFile(FileNames.ScriptFile(desdata, m.campaign, tilename, m.bands), ScriptText(m, tilename))
  }

  /** The job file of the tile (`get_wq_file` without `missing`). */
  function WqPath(m: ScriptMaker, desdata: string, tilename: string): string {
    FileNames.WqFile(desdata, m.campaign, tilename, m.bands, false)
  }

  /** `_write_wq`: remove the old `.wqlog`, then write the job file that runs the
      tile's script and logs next to its images. */
  function WriteWq(m: ScriptMaker, desdata: string, tilename: string): (r: seq<Action>)
    ensures |r| == 2 && r[0].RemoveFile? && r[1].WriteFile?
    ensures r[1].path == WqPath(m, desdata, tilename) && r[0].path == r[1].path + ".wqlog"
  {
    var wq := WqPath(m, desdata, tilename);
    [RemoveFile(wq + ".wqlog"),
     WriteFile(wq, WqText(FileNames.LogFile(desdata, m.campaign, tilename, m.bands, None),
                          FileNames.ScriptFile(desdata, m.campaign, tilename, m.bands),
                          JobName(tilename)))]
  }

  /** `_write_batch`: `lsf` reaches `get_lsf_file`, which fails with a NameError. */
  function WriteBatch(m: ScriptMaker, desdata: string, tilename: string): (r: Result<seq<Action>>)
    ensures r.Ok? <==> m.system == "wq"
    ensures m.system == "lsf" ==> r == Err(UndefinedName("bands"))
    ensures m.system != "wq" && m.system != "lsf" ==> r == Err(UnsupportedSystem(m.system))
  {
    if m.system == "wq" then Ok(WriteWq(m, desdata, tilename))
    else if m.system == "lsf" then Err(FileNames.LsfFile(desdata, m.campaign, tilename, false).error)
    else Err(UnsupportedSystem(m.system))
  }

  /** `_clear_batch`: `lsf` calls `_clear_lsf`, which the class does not define. */
  function ClearBatch(m: ScriptMaker, desdata: string, tilename: string): (r: Result<seq<Action>>)
    ensures r.Ok? <==> m.system == "wq"
    ensures m.system == "lsf" ==> r == Err(MissingAttribute("_clear_lsf"))
    ensures m.system != "wq" && m.system != "lsf" ==> r == Err(UnsupportedSystem(m.system))
  {
    if m.system == "wq" then
      var wq := WqPath(m, desdata, tilename);
      Ok([RemoveFile(wq), RemoveFile(wq + ".wqlog")])
    else if m.system == "lsf" then Err(MissingAttribute("_clear_lsf"))
    else Err(UnsupportedSystem(m.system))
  }

  /** Clearing a tile's job removes every file that writing it touches. */
  lemma ClearUndoesWrite(m: ScriptMaker, desdata: string, tilename: string)
    requires m.system == "wq"
    ensures forall a :: a in WriteBatch(m, desdata, tilename).value ==>
              !a.MakeDir? && RemoveFile(a.path) in ClearBatch(m, desdata, tilename).value
  {
    var wq := WqPath(m, desdata, tilename);
    assert ClearBatch(m, desdata, tilename).value == [RemoveFile(wq), RemoveFile(wq + ".wqlog")];
  }

  /** A run of `go`: the actions taken, and the exception that ended it, if any. */
  datatype Run = Run(actions: seq<Action>, failure: Option<Error>)

  /** The body of the second loop of `go` for one tile. */
  function TileStep(m: ScriptMaker, desdata: string, keys: seq<string>, existing: set<string>,
                    tilename: string): (r: Run)
    ensures r.failure.Some? <==> AllBandsPresent(m.bands, tilename, keys) && m.system != "wq"
    ensures !AllBandsPresent(m.bands, tilename, keys) ==> r.actions == []
    ensures forall a :: a in r.actions ==> !a.MakeDir?
  {
    if !AllBandsPresent(m.bands, tilename, keys) then Run([], None)
    else if OutputMissing(m, desdata, tilename, existing) then
      var script := WriteScript(m, desdata, tilename);
      match WriteBatch(m, desdata, tilename)
      case Ok(acts) => Run([script] + acts, None)
      case Err(e) => Run([script], Some(e))
    else
      match ClearBatch(m, desdata, tilename)
      case Ok(acts) => Run(acts, None)
      case Err(e) => Run([], Some(e))
  }

  /** The script directory is made first if it is missing. */
  function StartActions(m: ScriptMaker, desdata: string, existing: set<string>): seq<Action> {
    var dir := FileNames.ScriptDir(desdata, m.campaign);
    if dir in existing then [] else [MakeDir(dir)]
  }

  /** `go` over the given tiles, in order, stopping at the first exception. */
  function Plan(m: ScriptMaker, desdata: string, keys: seq<string>, existing: set<string>,
                tiles: seq<string>): (r: Run)
    ensures StartActions(m, desdata, existing) <= r.actions
    decreases |tiles|
  {
    if tiles == [] then Run(StartActions(m, desdata, existing), None)
    else
      var prev := Plan(m, desdata, keys, existing, tiles[..|tiles| - 1]);
      if prev.failure.Some? then prev
      else
        var step := TileStep(m, desdata, keys, existing, tiles[|tiles| - 1]);
        Run(prev.actions + step.actions, step.failure)
  }

  /** Once a run has failed, later tiles change nothing. */
  lemma {:induction false} PlanStops(m: ScriptMaker, desdata: string, keys: seq<string>,
                                     existing: set<string>, tiles: seq<string>, n: nat)
    requires n <= |tiles|
    requires Plan(m, desdata, keys, existing, tiles[..n]).failure.Some?
    ensures Plan(m, desdata, keys, existing, tiles) == Plan(m, desdata, keys, existing, tiles[..n])
    decreases |tiles| - n
  {
    if n == |tiles| {
      assert tiles[..n] == tiles;
    } else {
      var init := tiles[..|tiles| - 1];
      assert init[..n] == tiles[..n];
      PlanStops(m, desdata, keys, existing, init, n);
    }
  }

  /** One pass of the second loop of `go`. */
  method ProcessTile(m: ScriptMaker, desdata: string, keys: seq<string>, existing: set<string>,
                     tilename: string) returns (step: Run)
    ensures step == TileStep(m, desdata, keys, existing, tilename)
  {
    var present := BandsPresent(m.bands, tilename, keys);
    if !present {
      return Run([], None);
    }
    var doprint := NeedsImage(m, desdata, tilename, existing);
    if doprint {
      var script := WriteScript(m, desdata, tilename);
      var batch := WriteBatch(m, desdata, tilename);
      if batch.Err? {
        return Run([script], Some(batch.error));
      }
      return Run([script] + batch.value, None);
    }
    var clear := ClearBatch(m, desdata, tilename);
    if clear.Err? {
      return Run([], Some(clear.error));
    }
    return Run(clear.value, None);
  }

  /** `ScriptMaker.go` with the coadd list's keys (in order) and the paths that
      exist when it starts. */
  method Go(m: ScriptMaker, desdata: string, keys: seq<string>, existing: set<string>) returns (run: Run)
    ensures run == Plan(m, desdata, keys, existing, TileList(keys))
  {
    var tiles := TileNames(keys);
    run := Run(StartActions(m, desdata, existing), None);
    for i := 0 to |tiles|
      invariant run == Plan(m, desdata, keys, existing, tiles[..i]) && run.failure == None
    {
      assert tiles[..i + 1][..i] == tiles[..i] && tiles[..i + 1][i] == tiles[i];
      var step := ProcessTile(m, desdata, keys, existing, tiles[i]);
      assert Plan(m, desdata, keys, existing, tiles[..i + 1]) == Run(run.actions + step.actions, step.failure);
      if step.failure.Some? {
        PlanStops(m, desdata, keys, existing, tiles, i + 1);
        return Run(run.actions + step.actions, step.failure);
      }
      run := Run(run.actions + step.actions, None);
    }
    assert tiles[..|tiles|] == tiles;
  }

  // ===========================================================================
  // Properties of go

  /** With `wq`, `go` never raises. */
  lemma {:induction false} PlanWqSucceeds(m: ScriptMaker, desdata: string, keys: seq<string>,
                                          existing: set<string>, tiles: seq<string>)
    requires m.system == "wq"
    ensures Plan(m, desdata, keys, existing, tiles).failure == None
  {
    if tiles != [] {
      PlanWqSucceeds(m, desdata, keys, existing, tiles[..|tiles| - 1]);
    }
  }

  /** With any other system, `go` finishes exactly when no tile has all its bands:
      the first complete tile either writes a batch file or clears one, and both
      raise. */
  lemma {:induction false} PlanOtherSystemFails(m: ScriptMaker, desdata: string, keys: seq<string>,
                                                existing: set<string>, tiles: seq<string>)
    requires m.system != "wq"
    ensures Plan(m, desdata, keys, existing, tiles).failure == None <==>
            forall t :: t in tiles ==> !AllBandsPresent(m.bands, t, keys)
  {
    if tiles != [] {
      var init := tiles[..|tiles| - 1];
      PlanOtherSystemFails(m, desdata, keys, existing, init);
      assert tiles == init + [tiles[|tiles| - 1]];
    }
  }

  /** Beyond the script directory, `go` only touches files of tiles whose bands are
      all in the coadd list, and writes only for tiles with a missing image. */
  lemma {:induction false} PlanTouchesCompleteTiles(m: ScriptMaker, desdata: string, keys: seq<string>,
                                                    existing: set<string>, tiles: seq<string>)
    ensures forall a :: a in Plan(m, desdata, keys, existing, tiles).actions && !a.MakeDir? ==>
              exists t :: t in tiles && AllBandsPresent(m.bands, t, keys)
                          && (a.WriteFile? ==> OutputMissing(m, desdata, t, existing))
  {
    if tiles != [] {
      var init := tiles[..|tiles| - 1];
      var last := tiles[|tiles| - 1];
      PlanTouchesCompleteTiles(m, desdata, keys, existing, init);
      var prev := Plan(m, desdata, keys, existing, init);
      if prev.failure.None? {
        var step := TileStep(m, desdata, keys, existing, last);
        forall a | a in prev.actions + step.actions && !a.MakeDir?
          ensures exists t :: t in tiles && AllBandsPresent(m.bands, t, keys)
                              && (a.WriteFile? ==> OutputMissing(m, desdata, t, existing))
        {
          if a in prev.actions {
            var t :| t in init && AllBandsPresent(m.bands, t, keys)
                     && (a.WriteFile? ==> OutputMissing(m, desdata, t, existing));
            assert t in tiles;
          } else {
            assert a in step.actions;
            assert last in tiles;
          }
        }
      } else {
        forall a | a in prev.actions && !a.MakeDir?
          ensures exists t :: t in tiles && AllBandsPresent(m.bands, t, keys)
                              && (a.WriteFile? ==> OutputMissing(m, desdata, t, existing))
        {
          var t :| t in init && AllBandsPresent(m.bands, t, keys)
                   && (a.WriteFile? ==> OutputMissing(m, desdata, t, existing));
          assert t in tiles;
        }
      }
    }
  }
}
