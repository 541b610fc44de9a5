/** The path builders of desimage/files.py.

    Every builder is a pure string expression. `$DESDATA` is expanded by the
    caller and passed in as `desdata`; the campaign is upper-cased before it is
    used, so every derived path is independent of the case the caller chose. */
module FileNames {
  import opened Common
  import opened Strings

  /** `get_list_dir`: where the coadd file lists are kept. */
  function ListDir(desdata: string): string {
    desdata + "/jpg/lists"
  }

  /** The file-list name for a campaign, without its directory. */
  function FlistName(campaign: string): string {
    "coadd-flist-" + Upper(campaign) + ".fits"
  }

  /** `get_flist_file`. */
  function FlistFile(desdata: string, campaign: string): string {
    JoinPath(ListDir(desdata), FlistName(campaign))
  }

  /** `get_base_dir`: `$DESDATA/jpg/<CAMPAIGN>`. */
  function BaseDir(desdata: string, campaign: string): string {
    desdata + "/jpg/" + Upper(campaign)
  }

  /** `get_output_dir`. */
  function OutputDir(desdata: string, campaign: string, tilename: string): string {
    JoinPath(BaseDir(desdata, campaign), tilename)
  }

  /** `get_temp_dir`. */
  function TempDir(desdata: string, campaign: string, tilename: string): string {
    JoinPath(OutputDir(desdata, campaign, tilename), "sources")
  }

  /** The `-`-separated parts of an output name: tile, concatenated bands and, when a
      rebin factor is given, `rebinNN`. */
  function OutputParts(tilename: string, bands: seq<string>, rebin: Option<int>): seq<string> {
    [tilename, Concat(bands)] + (if rebin.Some? then ["rebin" + Format02(rebin.value)] else [])
  }

  /** The output name: the parts joined by `-`, a dot, then `ext` verbatim. */
  function OutputName(tilename: string, bands: seq<string>, rebin: Option<int>, ext: string): string {
    JoinWith("-", OutputParts(tilename, bands, rebin)) + "." + ext
  }

  /** The default `ext` of `get_output_file`, dot included. */
  const DefaultExt: string := ".jpg"

  /** `get_output_file`. */
  function OutputFile(desdata: string, campaign: string, tilename: string, bands: seq<string>,
                      rebin: Option<int>, ext: string): string {
    JoinPath(OutputDir(desdata, campaign, tilename), OutputName(tilename, bands, rebin, ext))
  }

  /** `get_log_file`. */
  function LogFile(desdata: string, campaign: string, tilename: string, bands: seq<string>,
                   rebin: Option<int>): string {
    OutputFile(desdata, campaign, tilename, bands, rebin, "log")
  }

  /** `get_script_dir`. */
  function ScriptDir(desdata: string, campaign: string): string {
    JoinPath(BaseDir(desdata, campaign), "scripts")
  }

  /** `get_script_file`. */
  function ScriptFile(desdata: string, campaign: string, tilename: string, bands: seq<string>): string {
    JoinPath(ScriptDir(desdata, campaign), tilename + "-" + Concat(bands) + ".sh")
  }

  /** `get_wq_file`. */
  function WqFile(desdata: string, campaign: string, tilename: string, bands: seq<string>,
                  missing: bool): string {
    JoinPath(ScriptDir(desdata, campaign),
             JoinWith("-", [tilename, Concat(bands)] + (if missing then ["missing"] else [])) + ".yaml")
  }

  /** `get_lsf_file` reads a name `bands` that is neither a parameter nor defined in
      the module, so every call ends in a NameError. */
  function LsfFile(desdata: string, campaign: string, tilename: string, missing: bool): (r: Result<string>)
    ensures r == Err(UndefinedName("bands"))
  {
    Err(UndefinedName("bands"))
  }

  // ===========================================================================
  // Properties

  lemma UpperKeepsSlashes(s: string)
    requires '/' !in s
    ensures '/' !in Upper(s)
  {
  }

  /** The file list is `coadd-flist-<CAMPAIGN>.fits` inside the list directory, and
      the campaign's case does not matter. */
  lemma FlistFileName(desdata: string, campaign: string)
    requires '/' !in campaign
    ensures Basename(FlistFile(desdata, campaign)) == "coadd-flist-" + Upper(campaign) + ".fits"
    ensures FlistFile(desdata, campaign) == JoinPath(desdata + "/jpg/lists", "coadd-flist-" + Upper(campaign) + ".fits")
    ensures FlistFile(desdata, Upper(campaign)) == FlistFile(desdata, campaign)
  {
    UpperKeepsSlashes(campaign);
    assert '/' !in FlistName(campaign) by {
      assert FlistName(campaign) == "coadd-flist-" + (Upper(campaign) + ".fits");
    }
    BasenameOfJoin(ListDir(desdata), FlistName(campaign));
    UpperIdempotent(campaign);
  }

  /** Every directory and file name built from a campaign is the same for the
      campaign and for its upper-cased spelling. */
  lemma CampaignCaseInsensitive(desdata: string, campaign: string, tilename: string,
                                bands: seq<string>, rebin: Option<int>, ext: string, missing: bool)
    ensures var up := Upper(campaign);
      BaseDir(desdata, up) == BaseDir(desdata, campaign) &&
      OutputDir(desdata, up, tilename) == OutputDir(desdata, campaign, tilename) &&
      TempDir(desdata, up, tilename) == TempDir(desdata, campaign, tilename) &&
      OutputFile(desdata, up, tilename, bands, rebin, ext) == OutputFile(desdata, campaign, tilename, bands, rebin, ext) &&
      ScriptDir(desdata, up) == ScriptDir(desdata, campaign) &&
      ScriptFile(desdata, up, tilename, bands) == ScriptFile(desdata, campaign, tilename, bands) &&
      WqFile(desdata, up, tilename, bands, missing) == WqFile(desdata, campaign, tilename, bands, missing)
  {
    UpperIdempotent(campaign);
  }

  /** A relative tile name lands in `$DESDATA/jpg/<CAMPAIGN>/<tile>`, and the temporary
      directory is `sources` inside it. */
  lemma DirectoryLayout(desdata: string, campaign: string, tilename: string)
    requires campaign != [] && '/' !in campaign
    requires tilename != [] && '/' !in tilename
    ensures OutputDir(desdata, campaign, tilename) == desdata + "/jpg/" + Upper(campaign) + "/" + tilename
    ensures TempDir(desdata, campaign, tilename) == OutputDir(desdata, campaign, tilename) + "/sources"
    ensures Basename(TempDir(desdata, campaign, tilename)) == "sources"
  {
    UpperKeepsSlashes(campaign);
    assert BaseDir(desdata, campaign) == (desdata + "/jpg/") + Upper(campaign);
    NestedJoin(BaseDir(desdata, campaign), Upper(campaign), tilename);
  }

  /** The directory layout for an abstract base directory ending in a name. */
  lemma NestedJoin(base: string, last: string, tilename: string)
    requires last != [] && '/' !in last && |base| >= |last| && base[|base| - |last|..] == last
    requires tilename != [] && '/' !in tilename
    ensures JoinPath(base, tilename) == base + "/" + tilename
    ensures JoinPath(JoinPath(base, tilename), "sources") == JoinPath(base, tilename) + "/sources"
    ensures Basename(JoinPath(JoinPath(base, tilename), "sources")) == "sources"
  {
    JoinNamed(base, last, tilename);
    var out := base + "/" + tilename;
    JoinNamed(out, tilename, "sources");
    SlashThenName(out, "sources");
    BasenameOfJoin(out, "sources");
  }

  /** Joining a relative name onto a directory that ends in a name inserts one slash. */
  lemma JoinNamed(dir: string, last: string, name: string)
    requires last != [] && '/' !in last && |dir| >= |last| && dir[|dir| - |last|..] == last
    requires name != [] && name[0] != '/'
    ensures JoinPath(dir, name) == dir + "/" + name
    ensures (dir + "/" + name)[|dir + "/" + name| - |name|..] == name
  {
    assert dir[|dir| - 1] == last[|last| - 1];
    assert (dir + "/" + name)[|dir + "/" + name| - |name|..] == name;
  }

  lemma SlashThenName(x: string, name: string)
    ensures x + "/" + name == x + ("/" + name)
  {
  }

  /** Joining two parts with `-`. */
  lemma JoinTwo(a: string, b: string)
    ensures JoinWith("-", [a, b]) == a + "-" + b
  {
    assert [a, b][1..] == [b];
  }

  /** Joining three parts with `-`. */
  lemma JoinThree(a: string, b: string, c: string)
    ensures JoinWith("-", [a, b, c]) == a + "-" + b + "-" + c
  {
    assert [a, b, c][1..] == [b, c];
    JoinTwo(b, c);
  }

  /** The output name is `<tile>-<bands>` with `-rebinNN` exactly when a rebin factor
      is given, then `.` and the extension as passed. */
  lemma OutputNameShape(tilename: string, bands: seq<string>, rebin: Option<int>, ext: string)
    ensures rebin.None? ==>
      OutputName(tilename, bands, rebin, ext) == tilename + "-" + Concat(bands) + "." + ext
    ensures rebin.Some? ==>
      OutputName(tilename, bands, rebin, ext) ==
        tilename + "-" + Concat(bands) + "-rebin" + Format02(rebin.value) + "." + ext
  {
    if rebin.Some? {
      assert OutputParts(tilename, bands, rebin) == [tilename, Concat(bands), "rebin" + Format02(rebin.value)];
      JoinThree(tilename, Concat(bands), "rebin" + Format02(rebin.value));
      assert tilename + "-" + Concat(bands) + "-" + ("rebin" + Format02(rebin.value)) ==
             tilename + "-" + Concat(bands) + "-rebin" + Format02(rebin.value);
    } else {
      assert OutputParts(tilename, bands, rebin) == [tilename, Concat(bands)];
      JoinTwo(tilename, Concat(bands));
    }
  }

  /** With the default extension, which carries its own dot, the name ends in `..jpg`. */
  lemma DefaultExtDoubleDot(tilename: string, bands: seq<string>)
    ensures OutputName(tilename, bands, None, DefaultExt) == tilename + "-" + Concat(bands) + "..jpg"
  {
    OutputNameShape(tilename, bands, None, DefaultExt);
  }

  /** Splitting the output name's front on `-` gives back the tile, the band string
      and the rebin field, from which the rebin factor reads back, provided none of
      them holds a `-`. */
  lemma OutputPartsRoundTrip(tilename: string, bands: seq<string>, rebin: Option<int>)
    requires '-' !in tilename && '-' !in Concat(bands)
    requires rebin.Some? ==> rebin.value >= 0
    ensures Split(JoinWith("-", OutputParts(tilename, bands, rebin)), '-') == OutputParts(tilename, bands, rebin)
    ensures |OutputParts(tilename, bands, rebin)| == 3 <==> rebin.Some?
    ensures rebin.Some? ==> ParseDigits(OutputParts(tilename, bands, rebin)[2][5..]) == rebin.value
  {
    var parts := OutputParts(tilename, bands, rebin);
    if rebin.Some? {
      var n: nat := rebin.value;
      Format02Digits(n);
      assert '-' !in Format02(n);
      assert '-' !in "rebin" + Format02(n);
      assert parts[2][5..] == Format02(n);
      Format02RoundTrip(n);
    }
    assert forall k :: 0 <= k < |parts| ==> '-' !in parts[k];
    SplitJoin(parts, '-');
  }

  /** The extension is appended verbatim: the log file is the image name with `log`
      in place of the extension, in the same directory. */
  lemma ExtensionAppended(desdata: string, campaign: string, tilename: string, bands: seq<string>,
                          rebin: Option<int>, ext: string)
    ensures OutputFile(desdata, campaign, tilename, bands, rebin, ext) ==
            OutputFile(desdata, campaign, tilename, bands, rebin, "") + ext
    ensures LogFile(desdata, campaign, tilename, bands, rebin) ==
            OutputFile(desdata, campaign, tilename, bands, rebin, "") + "log"
  {
    forall e: string
      ensures OutputFile(desdata, campaign, tilename, bands, rebin, e) ==
              OutputFile(desdata, campaign, tilename, bands, rebin, "") + e
    {
      var front := JoinWith("-", OutputParts(tilename, bands, rebin)) + ".";
      assert OutputName(tilename, bands, rebin, e) == front + e;
      assert OutputName(tilename, bands, rebin, "") == front;
      JoinAppend(OutputDir(desdata, campaign, tilename), front, e);
    }
  }

  /** Appending to a non-empty name commutes with joining it onto a directory. */
  lemma JoinAppend(dir: string, name: string, e: string)
    requires name != []
    ensures JoinPath(dir, name + e) == JoinPath(dir, name) + e
  {
    assert (name + e)[0] == name[0];
    if name[0] == '/' {
    } else if dir == [] || dir[|dir| - 1] == '/' {
      assert dir + (name + e) == (dir + name) + e;
    } else {
      assert dir + "/" + (name + e) == (dir + "/" + name) + e;
    }
  }

  /** The shell script, the wq file and its `missing` variant share the stem
      `<tile>-<bands>` in the scripts directory; the variants differ only by
      `-missing` before `.yaml`. */
  lemma ScriptFilesShareStem(desdata: string, campaign: string, tilename: string, bands: seq<string>)
    ensures var dir, stem := ScriptDir(desdata, campaign), tilename + "-" + Concat(bands);
      ScriptFile(desdata, campaign, tilename, bands) == JoinPath(dir, stem + ".sh") &&
      WqFile(desdata, campaign, tilename, bands, false) == JoinPath(dir, stem + ".yaml") &&
      WqFile(desdata, campaign, tilename, bands, true) == JoinPath(dir, stem + "-missing.yaml")
  {
    var stem := tilename + "-" + Concat(bands);
    assert [tilename, Concat(bands)] + [] == [tilename, Concat(bands)];
    assert [tilename, Concat(bands)] + ["missing"] == [tilename, Concat(bands), "missing"];
    JoinTwo(tilename, Concat(bands));
    JoinThree(tilename, Concat(bands), "missing");
    assert stem + "-" + "missing" + ".yaml" == stem + "-missing.yaml";
  }
}
