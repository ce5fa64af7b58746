/**
  The configuration module of the JavaScript exporter (src/config.js): the
  repository list read from `GITHUB_REPOSITORIES`, and the token and log level
  with their defaults.

  The environment is given as a map from variable names to values. Splitting
  follows JavaScript's `String.prototype.split` with a one-character separator,
  and the array destructuring `[owner, repository] = parts` takes the first two
  parts, leaving `repository` undefined when there is only one.
*/
module Config {
  import opened Wrappers

  /** `s.split(sep)`: the pieces between separators, empty ones included;
      there is always at least one. */
  function Split(s: string, sep: char): (parts: seq<string>)
    ensures |parts| >= 1
    decreases |s|
  {
    if |s| == 0 then [""]
    else
      var rest := Split(s[1..], sep);
      if s[0] == sep then [""] + rest else [[s[0]] + rest[0]] + rest[1..]
  }

  /** The pieces put back together with the separator between them (reference definition). */
  function Join(parts: seq<string>, sep: char): string
    decreases |parts|
  {
    if |parts| == 0 then ""
    else if |parts| == 1 then parts[0]
    else parts[0] + [sep] + Join(parts[1..], sep)
  }

  /** The number of times c occurs in s. */
  function Occurrences(s: string, c: char): nat
    decreases |s|
  {
    if |s| == 0 then 0 else (if s[0] == c then 1 else 0) + Occurrences(s[1..], c)
  }

  /** Joining the pieces gives back the string that was split. */
  lemma {:induction false} SplitJoin(s: string, sep: char)
    ensures Join(Split(s, sep), sep) == s
    decreases |s|
  {
    if |s| > 0 {
      var rest := Split(s[1..], sep);
      SplitJoin(s[1..], sep);
      if s[0] == sep {
        assert Split(s, sep)[1..] == rest;
        assert [s[0]] + s[1..] == s;
      } else {
        var parts := Split(s, sep);
        assert parts[1..] == rest[1..];
        if |rest| == 1 {
          assert parts == [[s[0]] + rest[0]];
        } else {
          assert rest[1..][1..] == rest[2..];
          assert Join(rest, sep) == rest[0] + [sep] + Join(rest[1..], sep);
        }
        assert [s[0]] + s[1..] == s;
      }
    }
  }

  /** No piece contains the separator, and there is one piece more than there
      are separators. */
  lemma {:induction false} SplitPieces(s: string, sep: char)
    ensures forall i :: 0 <= i < |Split(s, sep)| ==> sep !in Split(s, sep)[i]
    ensures |Split(s, sep)| == Occurrences(s, sep) + 1
    decreases |s|
  {
    if |s| > 0 {
      var rest := Split(s[1..], sep);
      SplitPieces(s[1..], sep);
      var parts := Split(s, sep);
      if s[0] == sep {
        assert forall i :: 1 <= i < |parts| ==> parts[i] == rest[i - 1];
      } else {
        assert forall i :: 1 <= i < |parts| ==> parts[i] == rest[i];
        assert sep !in rest[0];
      }
    }
  }

  /** Splitting pieces joined with a separator none of them contains gives the
      pieces back. */
  lemma {:induction false} JoinSplit(parts: seq<string>, sep: char)
    requires |parts| >= 1
    requires forall i :: 0 <= i < |parts| ==> sep !in parts[i]
    ensures Split(Join(parts, sep), sep) == parts
    decreases |parts|, |parts[0]|
  {
    var p := parts[0];
    if |p| == 0 {
      if |parts| > 1 {
        JoinSplit(parts[1..], sep);
        assert Join(parts, sep) == [sep] + Join(parts[1..], sep);
        assert ([sep] + Join(parts[1..], sep))[1..] == Join(parts[1..], sep);
        assert [""] + parts[1..] == parts;
      }
    } else {
      var shorter := [p[1..]] + parts[1..];
      assert forall i :: 1 <= i < |shorter| ==> shorter[i] == parts[i];
      assert p[1..] == p[1..] && sep !in p[1..] by {
        assert forall c :: c in p[1..] ==> c in p;
      }
      JoinSplit(shorter, sep);
      var joined := Join(parts, sep);
      assert joined == [p[0]] + Join(shorter, sep) by {
        assert [p[0]] + p[1..] == p;
        assert shorter[1..] == parts[1..];
        if |parts| > 1 {
          assert joined == p + [sep] + Join(parts[1..], sep);
          assert Join(shorter, sep) == p[1..] + [sep] + Join(parts[1..], sep);
        }
      }
      assert joined[1..] == Join(shorter, sep);
      assert joined[0] == p[0] && p[0] != sep;
      assert Split(joined, sep) == [[p[0]] + shorter[0]] + shorter[1..];
      assert [p[0]] + p[1..] == p;
      assert shorter[1..] == parts[1..];
      assert [p] + parts[1..] == parts;
    }
  }

  /** One entry of `GITHUB_REPOSITORIES`. */
  datatype RepoRef = RepoRef(owner: string, repository: Option<string>)

  /** `[owner, repository] = element.split('/')`. */
  function ParseEntry(element: string): (r: RepoRef)
    ensures '/' !in r.owner
    ensures r.repository.Some? ==> '/' !in r.repository.value
  {
    var parts := Split(element, '/');
    SplitPieces(element, '/');
    RepoRef(parts[0], if |parts| >= 2 then Some(parts[1]) else None)
  }

  /** The repository list: one entry per comma-separated piece, in order. */
  function ParseRepositories(value: string): (refs: seq<RepoRef>)
    ensures |refs| == Occurrences(value, ',') + 1
  {
    SplitPieces(value, ',');
    var pieces := Split(value, ',');
    seq(|pieces|, i requires 0 <= i < |pieces| => ParseEntry(pieces[i]))
  }

  /** The owner is the text before the first '/', or all of it if there is
      none; the repository is present exactly when there is a '/', and is then
      the text after the first '/' up to the next '/' or the end. */
  lemma {:induction false} ParseEntryFields(element: string)
    ensures var r := ParseEntry(element);
      && r.owner <= element
      && (|r.owner| < |element| ==> element[|r.owner|] == '/')
      && (r.repository.Some? <==> '/' in element)
      && (r.repository.Some? ==>
            && r.repository.value <= element[|r.owner| + 1..]
            && (|r.owner| + 1 + |r.repository.value| < |element| ==> element[|r.owner| + 1 + |r.repository.value|] == '/'))
  {
    var parts := Split(element, '/');
    SplitJoin(element, '/');
    SplitPieces(element, '/');
    var r := ParseEntry(element);
    if |parts| == 1 {
      assert element == parts[0];
    } else {
      var tail := Join(parts[1..], '/');
      assert element == parts[0] + ['/'] + tail;
      assert element[|r.owner| + 1..] == tail;
      if |parts| == 2 {
        assert tail == parts[1];
      } else {
        assert tail == parts[1] + ['/'] + Join(parts[2..], '/');
      }
      assert element[|parts[0]|] == '/';
    }
  }

  /** An entry with exactly one '/' is `owner + "/" + repository`. */
  lemma ParseEntryRoundTrip(element: string)
    requires Occurrences(element, '/') == 1
    ensures ParseEntry(element).repository.Some?
    ensures ParseEntry(element).owner + "/" + ParseEntry(element).repository.value == element
  {
    var parts := Split(element, '/');
    SplitPieces(element, '/');
    SplitJoin(element, '/');
    assert parts[1..][1..] == [];
  }

  /** Writing the entries back as `owner/repository`, comma separated, gives
      the variable's value when every entry had exactly one '/'. */
  function Render(refs: seq<RepoRef>): string
    requires forall i :: 0 <= i < |refs| ==> refs[i].repository.Some?
  {
    Join(seq(|refs|, i requires 0 <= i < |refs| => refs[i].owner + "/" + refs[i].repository.value), ',')
  }

  lemma RepositoriesRoundTrip(value: string)
    requires forall i :: 0 <= i < |Split(value, ',')| ==> Occurrences(Split(value, ',')[i], '/') == 1
    ensures forall i :: 0 <= i < |ParseRepositories(value)| ==> ParseRepositories(value)[i].repository.Some?
    ensures Render(ParseRepositories(value)) == value
  {
    var pieces := Split(value, ',');
    var refs := ParseRepositories(value);
    forall i | 0 <= i < |refs|
      ensures refs[i].repository.Some?
      ensures refs[i].owner + "/" + refs[i].repository.value == pieces[i]
    {
      ParseEntryRoundTrip(pieces[i]);
    }
    var rendered := seq(|refs|, i requires 0 <= i < |refs| => refs[i].owner + "/" + refs[i].repository.value);
    assert rendered == pieces;
    SplitJoin(value, ',');
  }

  /** An empty value still yields one entry, with an empty owner and no repository. */
  lemma EmptyValueOneEntry()
    ensures ParseRepositories("") == [RepoRef("", None)]
  {
  }

  /** The configuration src/config.js exports. */
  datatype Settings = Settings(repositories: seq<RepoRef>, token: string, logLevel: string)

  /** Loading fails when `GITHUB_REPOSITORIES` is unset: `split` is called on undefined. */
  datatype ConfigError = RepositoriesUnset

  const DefaultToken := "MISSING"
  const DefaultLogLevel := "debug"

  /** `process.env[name] || fallback`: an unset or empty variable yields the fallback. */
  function EnvOr(env: map<string, string>, name: string, fallback: string): (v: string)
    ensures v == fallback || (name in env && v == env[name])
    ensures v != "" <==> fallback != "" || (name in env && env[name] != "")
    ensures name in env && env[name] != "" ==> v == env[name]
  {
    if name in env && env[name] != "" then env[name] else fallback
  }

  /** Loading src/config.js. */
  function LoadSettings(env: map<string, string>): (r: Result<Settings, ConfigError>)
    ensures r.Failure? <==> "GITHUB_REPOSITORIES" !in env
    ensures r.Success? ==> r.value.repositories == ParseRepositories(env["GITHUB_REPOSITORIES"])
  {
    if "GITHUB_REPOSITORIES" !in env then Failure(RepositoriesUnset)
    else Success(Settings(
      ParseRepositories(env["GITHUB_REPOSITORIES"]),
      EnvOr(env, "GITHUB_TOKEN", DefaultToken),
      EnvOr(env, "LOG_LEVEL", DefaultLogLevel)))
  }

  /** With the token and the log level unset, or set to the empty string, they
      default to `MISSING` and `debug`; set to anything else, they are kept. */
  lemma Defaults(env: map<string, string>)
    requires "GITHUB_REPOSITORIES" in env
    ensures var s := LoadSettings(env).value;
      && (s.token == (if "GITHUB_TOKEN" in env && env["GITHUB_TOKEN"] != "" then env["GITHUB_TOKEN"] else "MISSING"))
      && (s.logLevel == (if "LOG_LEVEL" in env && env["LOG_LEVEL"] != "" then env["LOG_LEVEL"] else "debug"))
  {
  }

  /** An entry with a path keeps only its first two parts. */
  lemma ParseEntryScenario()
    ensures ParseEntry("a/b/c") == RepoRef("a", Some("b"))
  {
    assert Join(["a", "b", "c"], '/') == "a/b/c";
    JoinSplit(["a", "b", "c"], '/');
  }

  /** Two repositories, the second written without a repository part. */
  lemma ParseScenario()
    ensures ParseRepositories("a/b,c") == [RepoRef("a", Some("b")), RepoRef("c", None)]
  {
    SplitTwoPieces();
    EntryWithRepository();
    EntryWithoutRepository();
  }

  lemma SplitTwoPieces()
    ensures Split("a/b,c", ',') == ["a/b", "c"]
  {
    assert Join(["a/b", "c"], ',') == "a/b,c";
    JoinSplit(["a/b", "c"], ',');
  }

  lemma EntryWithRepository()
    ensures ParseEntry("a/b") == RepoRef("a", Some("b"))
  {
    assert Join(["a", "b"], '/') == "a/b";
    JoinSplit(["a", "b"], '/');
  }

  lemma EntryWithoutRepository()
    ensures ParseEntry("c") == RepoRef("c", None)
  {
    JoinSplit(["c"], '/');
  }
}
