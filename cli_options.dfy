/**
 * The command-line options of the server that steer settings loading: an
 * explicit configuration file, a secrets file, an environment override, and
 * a colon-separated list of directories to search for configuration.
 */
module CliOptions {
  import opened Wrappers

  /** Paths and the environment name are kept as text. */
  datatype CliOptions = CliOptions(
    config: Option<string>,
    secrets: Option<string>,
    environment: Option<string>,
    settingsSearchPath: Option<string>)
  {
    function ConfigPath(): Option<string>
    {
      config
    }

    function SecretsPath(): Option<string>
    {
      secrets
    }

    function EnvironmentOverride(): Option<string>
    {
      environment
    }

    /** The search directories: the given path, or the default, split at every colon. */
    function ImplicitSearchPaths(): (paths: seq<string>)
      ensures |paths| >= 1
    {
      Split(if settingsSearchPath.Some? then settingsSearchPath.value else DefaultSearchPath, ':')
    }
  }

  const DefaultSearchPath := "./resources"

  /** Settings loading is not refined further by these options. */
  datatype SettingsError = SettingsError(message: string)

  /** The override step hands the configuration builder back as it came. */
  function LoadOverrides<B>(config: B): Result<B, SettingsError>
  {
    Ok(config)
  }

  /** The number of times a character occurs in a text. */
  function Occurrences(s: string, c: char): nat
  {
    if |s| == 0 then 0 else (if s[0] == c then 1 else 0) + Occurrences(s[1..], c)
  }

  /** Joins pieces with the separator between each two. */
  function Join(parts: seq<string>, sep: char): string
    requires |parts| >= 1
  {
    if |parts| == 1 then parts[0] else parts[0] + [sep] + Join(parts[1..], sep)
  }

  /**
   * Splits a text at every occurrence of the separator, keeping empty pieces:
   * a text with n separators gives n + 1 pieces.
   */
  function Split(s: string, sep: char): (parts: seq<string>)
    ensures |parts| == Occurrences(s, sep) + 1
    ensures forall i :: 0 <= i < |parts| ==> sep !in parts[i]
  {
    if |s| == 0 then [[]]
    else
      var rest := Split(s[1..], sep);
      if s[0] == sep then [[]] + rest
      else [[s[0]] + rest[0]] + rest[1..]
  }

  /** Joining the pieces of a split gives back the text. */
  lemma {:induction false} JoinSplit(s: string, sep: char)
    ensures Join(Split(s, sep), sep) == s
  {
    if |s| > 0 {
      var rest := Split(s[1..], sep);
      JoinSplit(s[1..], sep);
      if s[0] == sep {
        assert ([[]] + rest)[1..] == rest;
      } else {
        var parts := [[s[0]] + rest[0]] + rest[1..];
        if |rest| == 1 {
          assert parts == [[s[0]] + rest[0]];
        } else {
          assert parts[1..] == rest[1..];
          assert Join(rest, sep) == rest[0] + [sep] + Join(rest[1..], sep);
        }
        assert s == [s[0]] + s[1..];
      }
    }
  }

  /** Splitting a join of separator-free pieces gives back the pieces. */
  lemma {:induction false} SplitJoin(parts: seq<string>, sep: char)
    requires |parts| >= 1
    requires forall i :: 0 <= i < |parts| ==> sep !in parts[i]
    ensures Split(Join(parts, sep), sep) == parts
    decreases |parts|, |parts[0]|
  {
    if |parts[0]| == 0 {
      if |parts| > 1 {
        SplitJoin(parts[1..], sep);
        var s := Join(parts, sep);
        assert s == [sep] + Join(parts[1..], sep);
        assert s[1..] == Join(parts[1..], sep);
        assert parts == [[]] + parts[1..];
      }
    } else {
      var head := parts[0];
      var shorter := [head[1..]] + parts[1..];
      assert head[0] != sep by {
        assert head[0] in parts[0];
      }
      forall i | 0 <= i < |shorter| ensures sep !in shorter[i] {
        if i == 0 {
          assert forall c :: c in head[1..] ==> c in head;
        } else {
          assert shorter[i] == parts[i];
        }
      }
      SplitJoin(shorter, sep);
      assert shorter[1..] == parts[1..];
      var s := Join(parts, sep);
      assert Join(shorter, sep) == s[1..] by {
        if |parts| == 1 {
        } else {
          assert s == head + [sep] + Join(parts[1..], sep);
        }
      }
      assert s[0] == head[0];
      assert [head[0]] + head[1..] == head;
      assert parts == [head] + parts[1..];
    }
  }

  /** A path with no colon is a single search directory; without a path the default is the only one. */
  lemma SearchPathsWithoutColon(opts: CliOptions)
    ensures opts.settingsSearchPath.None? ==> opts.ImplicitSearchPaths() == [DefaultSearchPath]
    ensures opts.settingsSearchPath.Some? && ':' !in opts.settingsSearchPath.value ==>
      opts.ImplicitSearchPaths() == [opts.settingsSearchPath.value]
  {
    if opts.settingsSearchPath.Some? && ':' !in opts.settingsSearchPath.value {
      SplitJoin([opts.settingsSearchPath.value], ':');
    }
    SplitJoin([DefaultSearchPath], ':');
  }

  /**
   * The search paths are the given path cut at its colons, in order, with
   * empty pieces kept; the explicit files and the environment are passed on
   * as given, and overriding leaves the builder as it is.
   */
  lemma LoadingOptionsFaithful<B>(opts: CliOptions, builder: B)
    ensures opts.settingsSearchPath.Some? ==>
      |opts.ImplicitSearchPaths()| == Occurrences(opts.settingsSearchPath.value, ':') + 1 &&
      Join(opts.ImplicitSearchPaths(), ':') == opts.settingsSearchPath.value
    ensures opts.ConfigPath() == opts.config && opts.SecretsPath() == opts.secrets
    ensures opts.EnvironmentOverride() == opts.environment
    ensures LoadOverrides(builder) == Ok(builder)
  {
    if opts.settingsSearchPath.Some? {
      JoinSplit(opts.settingsSearchPath.value, ':');
    }
  }
}
