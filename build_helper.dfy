/**
 * The build helper: at construction it switches engineering mode on and
 * classifies the build's version string as a development branch; the
 * queries only read these two fields.
 */
module BuildHelper {
  import opened Interfaces

  predicate IsAsciiLetter(c: char)
  {
    'a' <= c <= 'z' || 'A' <= c <= 'Z'
  }

  /** The characters that `.` in a `java.util.regex` pattern does not match by default. */
  predicate IsLineTerminator(c: char)
  {
    c == '\n' || c == '\r' || c == '\U{0085}' || c == '\U{2028}' || c == '\U{2029}'
  }

  /** `version.contains("-")`. */
  function ContainsDash(version: string): (r: bool)
    ensures r <==> exists i :: 0 <= i < |version| && version[i] == '-'
  {
    if version == [] then false
    else version[0] == '-' || ContainsDash(version[1..])
  }

  /**
   * `version.matches(Regex(".*[a-zA-Z]+.*"))`: the whole string must match,
   * so it holds when the string has an ASCII letter and no line terminator
   * (which `.` would not cross).
   */
  function MatchesLetterPattern(version: string): (r: bool)
    ensures r <==>
      (exists i :: 0 <= i < |version| && IsAsciiLetter(version[i])) &&
      (forall i :: 0 <= i < |version| ==> !IsLineTerminator(version[i]))
  {
    if version == [] then false
    else if IsLineTerminator(version[0]) then false
    else if IsAsciiLetter(version[0]) then NoLineTerminator(version[1..])
    else MatchesLetterPattern(version[1..])
  }

  function NoLineTerminator(s: string): (r: bool)
    ensures r <==> forall i :: 0 <= i < |s| ==> !IsLineTerminator(s[i])
  {
    if s == [] then true
    else !IsLineTerminator(s[0]) && NoLineTerminator(s[1..])
  }

  /** The development-branch test of the constructor. */
  function IsDevVersion(version: string): bool
  {
    ContainsDash(version) || MatchesLetterPattern(version)
  }

  /** For a one-line version string: a dev branch iff it has a '-' or an ASCII letter. */
  lemma DevVersionOfOneLine(version: string)
    requires forall i :: 0 <= i < |version| ==> !IsLineTerminator(version[i])
    ensures IsDevVersion(version) <==>
      exists i :: 0 <= i < |version| && (version[i] == '-' || IsAsciiLetter(version[i]))
  {
  }

  class BuildHelperImpl {
    const config: Config
    var devBranch: bool
    var engineeringMode: bool

    /** The invariant established by `init`: engineering mode is on. */
    predicate Valid()
      reads this
    {
      engineeringMode
    }

    /** `version` is the value of `BuildConfig.VERSION`. */
    constructor (config: Config, version: string)
      ensures this.config == config
      ensures Valid()
      ensures devBranch == IsDevVersion(version)
    {
      this.config := config;
      devBranch := false;
      engineeringMode := false;
      new;
      engineeringMode := true;
      devBranch := ContainsDash(version) || MatchesLetterPattern(version);
    }

    function IsEngineeringModeOrRelease(): (r: bool)
      reads this
      ensures !config.APS ==> r
      ensures config.APS && !engineeringMode ==> (r <==> !devBranch)
      ensures Valid() ==> r
    {
      if !config.APS then true else engineeringMode || !devBranch
    }

    function IsEngineeringMode(): (r: bool)
      reads this
      ensures Valid() ==> r
    {
      engineeringMode
    }

    function IsDev(): (r: bool)
      reads this
    {
      devBranch
    }
  }

  /** After construction the helper reports engineering mode, release-or-engineering, and the version's dev status. */
  method ConstructedHelper(config: Config, version: string) returns (engineering: bool, engineeringOrRelease: bool, dev: bool)
    ensures engineering && engineeringOrRelease
    ensures dev == IsDevVersion(version)
  {
    var helper := new BuildHelperImpl(config, version);
    engineering := helper.IsEngineeringMode();
    engineeringOrRelease := helper.IsEngineeringModeOrRelease();
    dev := helper.IsDev();
  }
}
