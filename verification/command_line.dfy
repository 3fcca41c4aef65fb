/**
 * Command-line parsing (src/utils/commandline.cpp).
 *
 * The argument vector is searched, program name included, for `--help`,
 * `--version`, `--bin`, `--reg` and `--map`. A value flag takes the next
 * argument as its value; when the flag is the last argument the next slot
 * is the vector's terminating null, which is an error. The settings are
 * fields of a single shared instance.
 */
module CommandLine {
  import opened Console

  /** `std::find`: the first position holding `cmd`, or `|argv|` when there is none. */
  function Find(argv: seq<string>, cmd: string): (r: nat)
    ensures r <= |argv|
    ensures r < |argv| ==> argv[r] == cmd
    ensures forall i :: 0 <= i < r ==> argv[i] != cmd
    decreases |argv|
  {
    if argv == [] then 0
    else if argv[0] == cmd then 0
    else 1 + Find(argv[1..], cmd)
  }

  /** `checkCommand`: whether `cmd` occurs anywhere in the vector. */
  function CheckCommand(argv: seq<string>, cmd: string): (found: bool)
    ensures found <==> cmd in argv
  {
    Find(argv, cmd) != |argv|
  }

  /**
   * `getStringValue`: the argument after the first `cmd`. The flag in the
   * last position reads the terminating null, and a missing flag gives null.
   */
  function GetStringValue(argv: seq<string>, cmd: string): (v: Option<string>)
    ensures v.Some? <==> exists i :: 0 <= i < |argv| - 1 && argv[i] == cmd && cmd !in argv[..i]
    ensures v.Some? ==> v.value == argv[Find(argv, cmd) + 1]
  {
    var p := Find(argv, cmd);
    if p < |argv| - 1 then
      assert argv[p] == cmd && cmd !in argv[..p];
      Some(argv[p + 1])
    else None
  }

  /** The three settings `parse` fills in. */
  datatype Settings = Settings(bin: string, region: string, mapper: string)

  /** One value flag: the new setting, or None for a missing value. */
  function Setting(argv: seq<string>, cmd: string, current: string): Option<string>
  {
    if !CheckCommand(argv, cmd) then Some(current)
    else GetStringValue(argv, cmd)
  }

  /**
   * `parse` as a function of the arguments and the settings before: whether
   * it succeeded, and the settings after. A bad value stops it, leaving the
   * settings of earlier flags already written.
   */
  function Parse(argv: seq<string>, s: Settings): (Settings, bool)
  {
    if |argv| <= 1 || CheckCommand(argv, "--help") || CheckCommand(argv, "--version") then (s, false)
    else match Setting(argv, "--bin", s.bin)
      case None => (s, false)
      case Some(bin) =>
        var s1 := s.(bin := bin);
        match Setting(argv, "--reg", s.region)
        case None => (s1, false)
        case Some(region) =>
          var s2 := s1.(region := region);
          match Setting(argv, "--map", s.mapper)
          case None => (s2, false)
          case Some(mapper) => (s2.(mapper := mapper), true)
  }

  /** A value flag is well formed when it is absent or not the last argument. */
  predicate HasValue(argv: seq<string>, cmd: string)
  {
    cmd in argv ==> Find(argv, cmd) < |argv| - 1
  }

  /**
   * `parse` succeeds exactly when there is an argument besides the program
   * name, neither `--help` nor `--version` is given, and every value flag
   * given has a value after it.
   */
  lemma ParseSucceeds(argv: seq<string>, s: Settings)
    ensures Parse(argv, s).1 <==>
              |argv| > 1 && "--help" !in argv && "--version" !in argv &&
              HasValue(argv, "--bin") && HasValue(argv, "--reg") && HasValue(argv, "--map")
  {
  }

  /**
   * After a successful parse each setting is the argument after the first
   * occurrence of its flag, or unchanged when the flag is absent.
   */
  lemma ParseValues(argv: seq<string>, s: Settings)
    requires Parse(argv, s).1
    ensures var s' := Parse(argv, s).0;
            s'.bin == (if "--bin" in argv then argv[Find(argv, "--bin") + 1] else s.bin) &&
            s'.region == (if "--reg" in argv then argv[Find(argv, "--reg") + 1] else s.region) &&
            s'.mapper == (if "--map" in argv then argv[Find(argv, "--map") + 1] else s.mapper)
  {
  }

  /** `--help` and `--version` change nothing, wherever they appear. */
  lemma HelpAndVersionChangeNothing(argv: seq<string>, s: Settings)
    requires "--help" in argv || "--version" in argv
    ensures Parse(argv, s) == (s, false)
  {
  }

  /**
   * A value flag without a value stops `parse` with the earlier flags
   * already stored: a good `--bin` followed by a bare trailing `--reg`
   * sets the binary and leaves the region and the mapper as they were.
   */
  lemma ParseKeepsEarlierValues(argv: seq<string>, s: Settings)
    requires |argv| > 1 && "--help" !in argv && "--version" !in argv
    requires "--bin" in argv && HasValue(argv, "--bin") && !HasValue(argv, "--reg")
    ensures Parse(argv, s) == (s.(bin := argv[Find(argv, "--bin") + 1]), false)
  {
  }

  /** The singleton holding the settings. */
  class Options {
    var binFilename: string
    var regionName: string
    var mapperName: string

    constructor ()
      ensures binFilename == "" && regionName == "" && mapperName == ""
    {
      binFilename := "";
      regionName := "";
      mapperName := "";
    }

    /** `parse`: the checks in the order of the source, each returning early on failure. */
    method ParseArgs(argv: seq<string>) returns (ok: bool)
      modifies this
      ensures (Settings(binFilename, regionName, mapperName), ok)
              == Parse(argv, Settings(old(binFilename), old(regionName), old(mapperName)))
    {
      if |argv| <= 1 {
        return false;
      }
      if CheckCommand(argv, "--help") {
        return false;
      }
      if CheckCommand(argv, "--version") {
        return false;
      }
      if CheckCommand(argv, "--bin") {
        var filename := GetStringValue(argv, "--bin");
        if filename.Some? {
          binFilename := filename.value;
        } else {
          return false;
        }
      }
      if CheckCommand(argv, "--reg") {
        var region := GetStringValue(argv, "--reg");
        if region.Some? {
          regionName := region.value;
        } else {
          return false;
        }
      }
      if CheckCommand(argv, "--map") {
        var mapper := GetStringValue(argv, "--map");
        if mapper.Some? {
          mapperName := mapper.value;
        } else {
          return false;
        }
      }
      return true;
    }
  }
}
