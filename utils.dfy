/** Configuration loading shared by both services: the `${NAME}` environment
    substitution applied to the raw text of the configuration file, the
    collapse of every loading error to an empty configuration, and the
    command-line selection of the configuration path. */
module Utils {
  import opened JsonValue
  import opened Wrappers

  /* ---------------------------------------------------------------------
     `${NAME}` substitution: one left-to-right pass of the pattern
     `\$\{([^}]+)\}` in which each match is replaced by the value of NAME in
     the environment, or kept verbatim when NAME is not defined.
     --------------------------------------------------------------------- */

  /** A reference `${NAME}` starts at the front of `s` and its closing brace
      is at index `j`: NAME is `s[2..j]`, non-empty and free of `}`. */
  predicate RefEndsAt(s: string, j: int)
  {
    3 <= j < |s| && s[0] == '$' && s[1] == '{' && s[j] == '}' && '}' !in s[2..j]
  }

  /** Index of the first `}` in `s` at or after `k`. */
  function FirstClose(s: string, k: nat): (r: Option<nat>)
    requires k <= |s|
    decreases |s| - k
    ensures r.Some? ==> k <= r.value < |s| && s[r.value] == '}' && '}' !in s[k..r.value]
    ensures r.None? ==> '}' !in s[k..]
  {
    if k == |s| then None
    else if s[k] == '}' then Some(k)
    else
      var r := FirstClose(s, k + 1);
      assert r.Some? ==> s[k..r.value] == [s[k]] + s[k + 1..r.value];
      assert s[k..] == [s[k]] + s[k + 1..];
      r
  }

  /** Where the reference at the front of `s` ends, if one starts there. The
      greedy `[^}]+` stops at the first `}`, so there is at most one. */
  function MatchEnd(s: string): (r: Option<nat>)
    ensures r.Some? ==> RefEndsAt(s, r.value)
  {
    if |s| >= 2 && s[0] == '$' && s[1] == '{' then
      match FirstClose(s, 2)
      case Some(j) => if j == 2 then None else Some(j)
      case None => None
    else None
  }

  /** The text of a reference to `name`. */
  function Ref(name: string): (r: string)
  {
    "${" + name + "}"
  }

  /** What one reference to `name` becomes: the variable's value, or the
      reference itself when the variable is not defined. */
  function Replacement(name: string, env: map<string, string>): (r: string)
  {
    if name in env then env[name] else Ref(name)
  }

  /** The single substitution pass over the configuration text: at each
      position either a reference ends at a later `}` and is replaced as a
      whole, or one character is copied and the scan moves on by one. */
  function Substitute(s: string, env: map<string, string>): (r: string)
    decreases |s|
  {
    if s == [] then []
    else
      match MatchEnd(s)
      case Some(j) => Replacement(s[2..j], env) + Substitute(s[j + 1..], env)
      case None =>
        assert s == [s[0]] + s[1..];
        [s[0]] + Substitute(s[1..], env)
  }

  /** The names of the references the pass matches, in the same scan. */
  function Names(s: string): (names: set<string>)
    decreases |s|
    ensures forall n :: n in names ==> n != [] && '}' !in n
  {
    if s == [] then {}
    else
      match MatchEnd(s)
      case Some(j) => {s[2..j]} + Names(s[j + 1..])
      case None => Names(s[1..])
  }

  /* Facts about sequences alone, proved apart from the scan so that their
     proofs do not meet its definition. */

  lemma Assoc(a: string, b: string, c: string)
    ensures a + b + c == a + (b + c)
  {
  }

  lemma Uncons(s: string)
    requires s != []
    ensures s == [s[0]] + s[1..]
  {
  }

  lemma TailOfAppend(t: string, u: string)
    requires t != []
    ensures (t + u)[0] == t[0] && (t + u)[1..] == t[1..] + u
  {
  }

  /** A reference at the front of `s` is `s` cut at its closing brace. */
  lemma RefSplit(s: string, j: int)
    requires RefEndsAt(s, j)
    ensures s == Ref(s[2..j]) + s[j + 1..]
  {
    assert s == s[..2] + s[2..j] + [s[j]] + s[j + 1..];
  }

  /** `${NAME}` followed by any text is a reference that ends after NAME. */
  lemma RefParts(name: string, rest: string)
    requires name != [] && '}' !in name
    ensures var s := Ref(name) + rest;
            RefEndsAt(s, |name| + 2) && s[2..|name| + 2] == name && s[|name| + 3..] == rest
  {
    var s := Ref(name) + rest;
    assert s == "${" + name + ("}" + rest);
  }

  /* The two steps of the scan. */

  /** The closing brace of a reference is the first `}` after `${`, so a
      reference at the front of the text is the one the scan matches. */
  lemma RefMatched(s: string, j: int)
    requires RefEndsAt(s, j)
    ensures FirstClose(s, 2) == Some(j)
    ensures MatchEnd(s) == Some(j)
  {
    assert s[2..][j - 2] == '}';
  }

  /** The scan finds no match at the front exactly when no reference
      `${NAME}` stands there. */
  lemma MatchEndExact(s: string)
    ensures MatchEnd(s).None? <==> forall j :: !RefEndsAt(s, j)
  {
    forall j | RefEndsAt(s, j)
      ensures MatchEnd(s) == Some(j)
    {
      RefMatched(s, j);
    }
  }

  lemma RefStep(s: string, j: int, env: map<string, string>)
    requires RefEndsAt(s, j)
    ensures MatchEnd(s) == Some(j)
    ensures Substitute(s, env) == Replacement(s[2..j], env) + Substitute(s[j + 1..], env)
  {
    RefMatched(s, j);
    MatchedStepAt(s, j, env);
  }

  lemma MatchedStepAt(s: string, j: nat, env: map<string, string>)
    requires MatchEnd(s) == Some(j)
    ensures Substitute(s, env) == Replacement(s[2..j], env) + Substitute(s[j + 1..], env)
  {
    MatchedStep(s, env);
  }

  lemma MatchedStep(s: string, env: map<string, string>)
    requires MatchEnd(s).Some?
    ensures var j := MatchEnd(s).value;
            Substitute(s, env) == Replacement(s[2..j], env) + Substitute(s[j + 1..], env)
  {
  }

  /** When no reference starts at the front, its first character is copied
      and the scan moves on by one. */
  lemma LiteralStep(s: string, env: map<string, string>)
    requires s != [] && MatchEnd(s).None?
    ensures Substitute(s, env) == [s[0]] + Substitute(s[1..], env)
  {
  }

  /** Where no reference `${NAME}` stands at the front, the first character
      is copied as is and the scan continues from the next one. */
  lemma CopyWhereNoRef(s: string, env: map<string, string>)
    requires s != [] && forall j :: !RefEndsAt(s, j)
    ensures Substitute(s, env) == [s[0]] + Substitute(s[1..], env)
  {
    MatchEndExact(s);
    LiteralStep(s, env);
  }

  /* What the pass does. */

  /** A reference at the front is replaced as a whole, whatever characters
      other than `}` its name holds (`$`, `{`, blanks, line breaks), and the
      scan resumes right after its closing brace. */
  lemma SubstituteRef(name: string, rest: string, env: map<string, string>)
    requires name != [] && '}' !in name
    ensures Substitute(Ref(name) + rest, env) == Replacement(name, env) + Substitute(rest, env)
  {
    RefParts(name, rest);
    RefStep(Ref(name) + rest, |name| + 2, env);
  }

  /** Text free of `$` starts no reference and passes through unchanged, and
      the rest of the input is scanned as if it stood alone. */
  lemma {:induction false} SubstituteLiteral(t: string, rest: string, env: map<string, string>)
    requires '$' !in t
    ensures Substitute(t + rest, env) == t + Substitute(rest, env)
    decreases |t|
  {
    if t == [] {
      assert t + rest == rest;
    } else {
      TailOfAppend(t, rest);
      LiteralStep(t + rest, env);
      SubstituteLiteral(t[1..], rest, env);
      Uncons(t);
      Assoc([t[0]], t[1..], Substitute(rest, env));
    }
  }

  /** A reference surrounded by text: the text before it is copied, the
      reference replaced, and the scan goes on after it. */
  lemma SubstituteInContext(before: string, name: string, after: string, env: map<string, string>)
    requires '$' !in before && name != [] && '}' !in name
    ensures Substitute(before + Ref(name) + after, env) == before + Replacement(name, env) + Substitute(after, env)
  {
    SubstituteLiteral(before, Ref(name) + after, env);
    SubstituteRef(name, after, env);
    Assoc(before, Ref(name), after);
    Assoc(before, Replacement(name, env), Substitute(after, env));
  }

  /** Text without any `}` holds no complete reference, so a `${` that is
      never closed is returned as is. */
  lemma {:induction false} UnclosedKept(s: string, env: map<string, string>)
    requires '}' !in s
    ensures Substitute(s, env) == s
    decreases |s|
  {
    if s != [] {
      LiteralStep(s, env);
      UnclosedKept(s[1..], env);
      Uncons(s);
    }
  }

  /** A reference whose name is empty, `${}`, is not a match and stays. */
  lemma EmptyNameKept(rest: string, env: map<string, string>)
    ensures Substitute("${}" + rest, env) == "${}" + Substitute(rest, env)
  {
    var s := "${}" + rest;
    TailOfAppend("${}", rest);
    assert s[1] == '{' && s[2] == '}';
    assert FirstClose(s, 2) == Some(2);
    LiteralStep(s, env);
    SubstituteLiteral("{}", rest, env);
    Assoc("$", "{}", Substitute(rest, env));
  }

  /** References to variables the environment does not define are left
      verbatim: if none of the matched names is defined the text is unchanged. */
  lemma {:induction false} UndefinedNamesKept(s: string, env: map<string, string>)
    requires Names(s) !! env.Keys
    ensures Substitute(s, env) == s
    decreases |s|
  {
    if s != [] {
      match MatchEnd(s)
      case Some(j) =>
        assert s[2..j] in Names(s);
        RefStep(s, j, env);
        UndefinedNamesKept(s[j + 1..], env);
        RefSplit(s, j);
      case None =>
        LiteralStep(s, env);
        UndefinedNamesKept(s[1..], env);
        Uncons(s);
    }
  }

  /** Only the variables the text refers to matter: two environments that
      agree on them give the same result. */
  lemma {:induction false} OnlyNamesMatter(s: string, env1: map<string, string>, env2: map<string, string>)
    requires forall n :: n in Names(s) ==> Replacement(n, env1) == Replacement(n, env2)
    ensures Substitute(s, env1) == Substitute(s, env2)
    decreases |s|
  {
    if s != [] {
      match MatchEnd(s)
      case Some(j) =>
        assert Names(s) == {s[2..j]} + Names(s[j + 1..]);
        OnlyNamesMatter(s[j + 1..], env1, env2);
        RefStep(s, j, env1);
        RefStep(s, j, env2);
      case None =>
        assert Names(s) == Names(s[1..]);
        OnlyNamesMatter(s[1..], env1, env2);
        LiteralStep(s, env1);
        LiteralStep(s, env2);
    }
  }

  /** A single pass: text brought in by a replacement is not scanned again,
      even when it is itself a reference. */
  lemma ReplacementNotRescanned()
    ensures Substitute("${A}", map["A" := "${B}", "B" := "x"]) == "${B}"
  {
    var env := map["A" := "${B}", "B" := "x"];
    SubstituteRef("A", "", env);
    assert "${A}" == Ref("A") + "";
  }

  /** A match ends at the first `}`: a later `}` is ordinary text. */
  lemma MatchStopsAtFirstClose(value: string)
    ensures Substitute("${a}b}", map["a" := value]) == value + "b}"
  {
    SubstituteRef("a", "b}", map["a" := value]);
    SubstituteLiteral("b}", "", map["a" := value]);
    assert "${a}b}" == Ref("a") + "b}";
  }

  /* ---------------------------------------------------------------------
     Loading the configuration file.
     --------------------------------------------------------------------- */

  /** What the file system yields for a configuration path: absent before
      opening, gone by the time it is opened, not readable for lack of
      permission, failing in any other way, or its text. */
  datatype ConfigFile = Absent | Vanished | PermissionDenied | ReadFailed | Text(content: string)

  /** What the YAML loader yields for a text: a value, a YAML error, or any
      other exception. */
  datatype YamlLoad = Loaded(value: Json) | YamlError | LoaderFailed

  /** `load_config`: every error path gives the empty dict and nothing is
      raised; otherwise the result is exactly what the YAML loader makes of
      the substituted text (which may itself be `{}`, `None` or a non-dict). */
  function LoadConfig(path: string, fs: string -> ConfigFile, env: map<string, string>,
                      parse: string -> YamlLoad): (r: Json)
    ensures !fs(path).Text? ==> r == EmptyObject
    ensures fs(path).Text? && !parse(Substitute(fs(path).content, env)).Loaded? ==> r == EmptyObject
    ensures fs(path).Text? && parse(Substitute(fs(path).content, env)).Loaded? ==>
              r == parse(Substitute(fs(path).content, env)).value
    ensures r != EmptyObject ==>
              fs(path).Text? && parse(Substitute(fs(path).content, env)) == Loaded(r)
  {
    match fs(path)
    case Text(content) =>
      (match parse(Substitute(content, env))
       case Loaded(v) => v
       case _ => EmptyObject)
    case _ => EmptyObject
  }

  /** `setup_basic_app`: the configuration path is the `--config` argument
      when given and the service's default otherwise, and the loaded
      configuration is handed back as it is, an empty one included. */
  function SetupBasicApp(defaultPath: string, configArg: Option<string>, fs: string -> ConfigFile,
                         env: map<string, string>, parse: string -> YamlLoad): (r: Json)
    ensures configArg.Some? ==> r == LoadConfig(configArg.value, fs, env, parse)
    ensures configArg.None? ==> r == LoadConfig(defaultPath, fs, env, parse)
  {
    var path := match configArg case Some(p) => p case None => defaultPath;
    LoadConfig(path, fs, env, parse)
  }

  /** An environment reference in the configuration text reaches the YAML
      loader already replaced by the variable's value. */
  lemma LoadConfigSeesValue(path: string, fs: string -> ConfigFile, name: string,
                            env: map<string, string>, parse: string -> YamlLoad,
                            before: string, after: string)
    requires fs(path) == Text(before + Ref(name) + after)
    requires '$' !in before && name != [] && '}' !in name && name in env
    ensures parse(before + env[name] + Substitute(after, env)).Loaded? ==>
              LoadConfig(path, fs, env, parse) == parse(before + env[name] + Substitute(after, env)).value
  {
    SubstituteInContext(before, name, after, env);
  }
}
