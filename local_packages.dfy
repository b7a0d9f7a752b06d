/** `get_local_packages` of `src/utils/packages.py`: the names of the
    packages a project depends on, collected from `requirements.txt` and
    `pyproject.toml` and returned sorted without duplicates. The files are
    given as values: the lines of `requirements.txt`, and what the TOML
    parser made of `pyproject.toml`. */
module LocalPackages {
  import opened Common
  import opened Text

  /** A character at which `re.split(r'[=<>!~\[\s]', ...)` cuts. */
  predicate IsNameStop(c: char) {
    c == '=' || c == '<' || c == '>' || c == '!' || c == '~' || c == '[' || IsSpace(c)
  }

  /** `re.split(r'[=<>!~\[\s]', s)[0]`: the longest prefix of `s` without a
      stop character. */
  function PackageName(s: string): (r: string)
    ensures r <= s
    ensures forall i :: 0 <= i < |r| ==> !IsNameStop(r[i])
    ensures |r| == |s| || IsNameStop(s[|r|])
  {
    if s == [] || IsNameStop(s[0]) then ""
    else [s[0]] + PackageName(s[1..])
  }

  /** A name without stop characters, followed by nothing or by a stop
      character and anything, splits back to that name. */
  lemma {:induction false} PackageNameOfSpecifier(name: string, suffix: string)
    requires forall i :: 0 <= i < |name| ==> !IsNameStop(name[i])
    requires suffix == [] || IsNameStop(suffix[0])
    ensures PackageName(name + suffix) == name
  {
    if name != [] {
      assert (name + suffix)[1..] == name[1..] + suffix;
      PackageNameOfSpecifier(name[1..], suffix);
    } else {
      assert name + suffix == suffix;
    }
  }

  /** What one line of `requirements.txt` contributes: nothing for a blank
      line, a comment, an option or include line (anything starting with
      `-`), or a line whose name part is empty; otherwise its name part. */
  function RequirementName(line: string): (r: Option<string>)
    ensures r.Some? ==> r.value != [] && r.value <= Strip(line)
    ensures r.Some? <==> var l := Strip(line); l != [] && l[0] != '#' && l[0] != '-' && !IsNameStop(l[0])
  {
    var l := Strip(line);
    if l == [] || l[0] == '#' || l[0] == '-' then None
    else
      var name := PackageName(l);
      if name == [] then None else Some(name)
  }

  /** A line holding just a package name, possibly followed by a version
      specifier or extras, contributes exactly that name. */
  lemma RequirementLineNamesPackage(name: string, suffix: string)
    requires name != [] && name[0] != '#' && name[0] != '-'
    requires forall i :: 0 <= i < |name| ==> !IsNameStop(name[i])
    requires suffix == [] || IsNameStop(suffix[0])
    requires !IsSpace((name + suffix)[|name + suffix| - 1])
    ensures RequirementName(name + suffix) == Some(name)
  {
    var line := name + suffix;
    assert line[0] == name[0];
    StripKeepsTrimmed(line);
    PackageNameOfSpecifier(name, suffix);
  }

  /** The names contributed by the lines of `requirements.txt`. */
  function RequirementSet(lines: seq<string>): (r: set<string>)
    ensures "" !in r
  {
    if lines == [] then {}
    else
      RequirementSet(lines[..|lines| - 1]) + LineSet(lines[|lines| - 1])
  }

  /** The names one line contributes: none or one. */
  function LineSet(line: string): (r: set<string>)
    ensures RequirementName(line).Some? ==> r == {RequirementName(line).value}
    ensures RequirementName(line).None? ==> r == {}
  {
    match RequirementName(line)
    case Some(p) => {p}
    case None => {}
  }

  /** Line `line` of `requirements.txt` contributes the name `p`. */
  predicate Contributes(line: string, p: string) {
    RequirementName(line) == Some(p)
  }

  /** Every name a line contributes is collected. */
  lemma {:induction false} LineCollected(lines: seq<string>, i: nat, p: string)
    requires i < |lines| && Contributes(lines[i], p)
    ensures p in RequirementSet(lines)
  {
    var init := lines[..|lines| - 1];
    assert RequirementSet(lines) == RequirementSet(init) + LineSet(lines[|lines| - 1]);
    if i < |init| {
      assert init[i] == lines[i];
      LineCollected(init, i, p);
    }
  }

  /** Every collected name comes from some line. */
  lemma {:induction false} CollectedFromLine(lines: seq<string>, p: string)
    requires p in RequirementSet(lines)
    ensures exists i :: 0 <= i < |lines| && Contributes(lines[i], p)
  {
    var init := lines[..|lines| - 1];
    assert RequirementSet(lines) == RequirementSet(init) + LineSet(lines[|lines| - 1]);
    if p in RequirementSet(init) {
      CollectedFromLine(init, p);
      var i :| 0 <= i < |init| && Contributes(init[i], p);
      assert lines[i] == init[i];
    } else {
      assert Contributes(lines[|lines| - 1], p);
    }
  }

  /** One entry of `[project] dependencies`: a requirement string, a table,
      or any other TOML value, which the loop skips. */
  datatype Dependency = DepString(spec: string) | DepTable(keys: seq<string>) | DepOther

  /** `[tool.poetry] dependencies`: absent, a table with these keys, or a
      value without `.keys()`, which raises. */
  datatype PoetryDependencies = NoPoetry | PoetryTable(keys: seq<string>) | PoetryBroken

  /** `[project] dependencies`: absent, a list of entries, or a value that
      cannot be iterated, which raises. A TOML string is iterated character
      by character and is given here as a list of one-character entries. */
  datatype ProjectDependencies = NoProject | ProjectList(deps: seq<Dependency>) | ProjectBroken

  /** `pyproject.toml`: absent, unreadable or not TOML, or parsed. */
  datatype Pyproject =
    | NoPyproject
    | Unparsable(error: string)
    | Parsed(poetry: PoetryDependencies, project: ProjectDependencies)

  /** The names one `[project]` entry contributes. Unlike a requirements
      line, an empty name part is added (and discarded at the end). */
  function DependencyNames(d: Dependency): (r: set<string>)
    ensures d.DepOther? ==> r == {}
    ensures d.DepString? ==> r == {PackageName(d.spec)}
    ensures d.DepTable? ==> r == ToSet(d.keys)
  {
    match d
    case DepString(s) => {PackageName(s)}
    case DepTable(keys) => ToSet(keys)
    case DepOther => {}
  }

  /** The names the `[project]` entries contribute: exactly the names of
      some entry. */
  function DependencySet(deps: seq<Dependency>): (r: set<string>)
    ensures forall i :: 0 <= i < |deps| ==> DependencyNames(deps[i]) <= r
    ensures forall n :: n in r <==> exists i :: 0 <= i < |deps| && n in DependencyNames(deps[i])
  {
    if deps == [] then {}
    else
      var init := deps[..|deps| - 1];
      var rest := DependencySet(init);
      assert forall i :: 0 <= i < |init| ==> init[i] == deps[i];
      rest + DependencyNames(deps[|deps| - 1])
  }

  function ProjectSet(project: ProjectDependencies): set<string> {
    if project.ProjectList? then DependencySet(project.deps) else {}
  }

  /** The names `pyproject.toml` contributes. Poetry's are added first; if
      reading them raises, the `[project]` list is never looked at, and
      the exception is swallowed either way. */
  function PyprojectSet(p: Pyproject): (r: set<string>)
    ensures p.NoPyproject? || p.Unparsable? ==> r == {}
    ensures p.Parsed? && p.poetry.PoetryTable? ==> ToSet(p.poetry.keys) <= r
    ensures p.Parsed? && p.poetry.PoetryBroken? ==> r == {}
    ensures p.Parsed? && !p.poetry.PoetryBroken? && p.project.ProjectList? ==> DependencySet(p.project.deps) <= r
    ensures p.Parsed? && !p.poetry.PoetryBroken? ==> forall n :: n in r <==>
      || (p.poetry.PoetryTable? && n in p.poetry.keys)
      || (p.project.ProjectList? && exists i :: 0 <= i < |p.project.deps| && n in DependencyNames(p.project.deps[i]))
  {
    match p
    case NoPyproject => {}
    case Unparsable(_) => {}
    case Parsed(PoetryBroken, _) => {}
    case Parsed(NoPoetry, project) => ProjectSet(project)
    case Parsed(PoetryTable(keys), project) => ToSet(keys) + ProjectSet(project)
  }

  /** The packages `get_local_packages` reports, as a set. */
  function LocalPackageSet(requirements: Option<seq<string>>, pyproject: Pyproject): (r: set<string>)
    ensures "python" !in r && "" !in r
    ensures forall p :: p in r <==>
      && p != "python" && p != ""
      && ((requirements.Some? && p in RequirementSet(requirements.value)) || p in PyprojectSet(pyproject))
  {
    (if requirements.Some? then RequirementSet(requirements.value) else {}) + PyprojectSet(pyproject) - {"python", ""}
  }

  /** A broken or missing `pyproject.toml` loses nothing from `requirements.txt`. */
  lemma PyprojectErrorKeepsRequirements(lines: seq<string>, error: string)
    ensures LocalPackageSet(Some(lines), Unparsable(error)) == RequirementSet(lines) - {"python"}
  {
    assert forall p :: p in RequirementSet(lines) ==> p != "";
  }

  /** The body of the loop over `requirements.txt`: one line is stripped,
      skipped if blank, a comment or an option, and otherwise split. */
  method AddRequirementLine(all: set<string>, rawLine: string) returns (all': set<string>)
    ensures all' == all + LineSet(rawLine)
  {
    all' := all;
    var line := Strip(rawLine);
    if line == [] || line[0] == '#' {
      assert RequirementName(rawLine) == None;
      return;
    }
    if line[0] == '-' {
      assert RequirementName(rawLine) == None;
      return;
    }
    var package := PackageName(line);
    if package != [] {
      assert RequirementName(rawLine) == Some(package);
      all' := all' + {package};
    } else {
      assert RequirementName(rawLine) == None;
    }
  }

  /** The loop over the lines of `requirements.txt`. */
  method ReadRequirements(lines: seq<string>) returns (all: set<string>)
    ensures all == RequirementSet(lines)
  {
    all := {};
    for i := 0 to |lines|
      invariant all == RequirementSet(lines[..i])
    {
      assert lines[..i + 1][..i] == lines[..i];
      all := AddRequirementLine(all, lines[i]);
    }
    assert lines[..|lines|] == lines;
  }

  /** The loop over `[project] dependencies`, adding to `all`. */
  method AddProjectDependencies(all: set<string>, deps: seq<Dependency>) returns (all': set<string>)
    ensures all' == all + DependencySet(deps)
  {
    all' := all;
    for i := 0 to |deps|
      invariant all' == all + DependencySet(deps[..i])
    {
      assert deps[..i + 1][..i] == deps[..i];
      match deps[i] {
        case DepString(s) =>
          all' := all' + {PackageName(s)};
        case DepTable(keys) =>
          all' := all' + ToSet(keys);
        case DepOther =>
      }
    }
    assert deps[..|deps|] == deps;
  }

  /** `get_local_packages`. `requirements` is `None` when the file does
      not exist. */
  method GetLocalPackages(requirements: Option<seq<string>>, pyproject: Pyproject) returns (r: seq<string>)
    ensures StrictlySorted(r)
    ensures ToSet(r) == LocalPackageSet(requirements, pyproject)
  {
    var all: set<string> := {};
    if requirements.Some? {
      all := ReadRequirements(requirements.value);
    }
    if pyproject.Parsed? {
      match pyproject.poetry {
        case NoPoetry =>
        case PoetryTable(keys) =>
          all := all + ToSet(keys);
        case PoetryBroken =>
      }
      if !pyproject.poetry.PoetryBroken? && pyproject.project.ProjectList? {
        all := AddProjectDependencies(all, pyproject.project.deps);
      }
    }
    all := all - {"python"};
    all := all - {""};
    r := SortStrings(all);
  }
}
