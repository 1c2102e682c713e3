/** The construction of the settings object for a locust load test
    (`create_settings` in invokust/settings.py).

    The settings start from the arguments, are overridden from `LOCUST_*`
    environment variables on request, take their user classes either from a
    locustfile or from the `classes` value, and are then validated: the four
    required attributes must be truthy, and those given as digit strings become
    integers.  Loading a locustfile and evaluating a class name are parameters. */
module Settings {
  import opened Wrappers
  import opened Numeric

  /** The Python values the settings hold. */
  datatype Value =
    | NoneValue
    | Bool(b: bool)
    | Int(i: int)
    | Str(s: string)
    | List(items: seq<Value>)
    | Class(name: string)   // a user class object

  /** Python truthiness. */
  predicate Truthy(v: Value)
  {
    match v
    case NoneValue => false
    case Bool(b) => b
    case Int(i) => i != 0
    case Str(s) => s != ""
    case List(items) => items != []
    case Class(_) => true
  }

  /** The keyword arguments of `create_settings`. */
  datatype Args = Args(
    fromEnvironment: bool,
    locustfile: Value,
    classes: Value,
    host: Value,
    numUsers: Value,
    spawnRate: Value,
    resetStats: Value,
    runTime: Value,
    loglevel: Value)

  /** The defaults of the keyword arguments. */
  function DefaultArgs(): Args
  {
    Args(false, NoneValue, NoneValue, NoneValue, NoneValue, NoneValue, Bool(false), Str("3m"), Str("INFO"))
  }

  /** The attributes of the settings object, by name. */
  type Attrs = map<string, Value>

  /** The process environment. */
  type Environment = map<string, string>

  datatype ConfigError =
    | MissingSource            // neither a locustfile nor classes
    | BothSources              // both a locustfile and classes
    | NotSet(attribute: string)

  /** The attributes that environment variables may override, in order. */
  const EnvAttributes: seq<string> :=
    ["locustfile", "classes", "host", "run_time", "num_users", "spawn_rate", "loglevel"]

  /** The attributes that must be set, in the order they are checked. */
  const RequiredAttributes: seq<string> := ["classes", "host", "num_users", "spawn_rate"]

  /** `getattr(settings, name, None)`. */
  function Get(attrs: Attrs, name: string): Value
  {
    if name in attrs then attrs[name] else NoneValue
  }

  /** The settings object before any override (lines 38-55).  The `loglevel`
      argument is not stored. */
  function InitialAttrs(args: Args): Attrs
  {
    map[
      "from_environment" := Bool(args.fromEnvironment),
      "locustfile" := args.locustfile,
      "classes" := args.classes,
      "host" := args.host,
      "tags" := NoneValue,
      "exclude_tags" := NoneValue,
      "reset_stats" := args.resetStats,
      "step_load" := Bool(false),
      "stop_timeout" := NoneValue,
      "num_users" := args.numUsers,
      "run_time" := args.runTime,
      "spawn_rate" := args.spawnRate]
  }

  // ---------------------------------------------------------------------------
  // Environment overrides

  function UpperChar(c: char): char
  {
    if 'a' <= c <= 'z' then (c as int - 'a' as int + 'A' as int) as char else c
  }

  /** `str.upper` on ASCII letters: no lower-case letter is left, each one
      becomes its capital, and every other character is kept in its place. */
  function Upper(s: string): (r: string)
    ensures |r| == |s|
    ensures forall i :: 0 <= i < |r| ==> !('a' <= r[i] <= 'z')
    ensures forall i :: 0 <= i < |s| && 'a' <= s[i] <= 'z' ==> r[i] as int == s[i] as int - 32
    ensures forall i :: 0 <= i < |s| && !('a' <= s[i] <= 'z') ==> r[i] == s[i]
  {
    seq(|s|, i requires 0 <= i < |s| => UpperChar(s[i]))
  }

  /** Upper-casing twice is upper-casing once. */
  lemma UpperIdempotent(s: string)
    ensures Upper(Upper(s)) == Upper(s)
  {
  }

  /** The variable that overrides `attribute`. */
  function EnvVarName(attribute: string): string
  {
    "LOCUST_" + Upper(attribute)
  }

  /** The override of one attribute: an empty or missing variable changes nothing. */
  function Override(attrs: Attrs, env: Environment, attribute: string): Attrs
  {
    var name := EnvVarName(attribute);
    if name in env && env[name] != "" then attrs[attribute := Str(env[name])] else attrs
  }

  /** The overrides of the attributes in `names`, applied in order. */
  function ApplyEnvironment(attrs: Attrs, env: Environment, names: seq<string>): Attrs
  {
    if names == [] then attrs
    else Override(ApplyEnvironment(attrs, env, names[..|names| - 1]), env, names[|names| - 1])
  }

  /** The variable of `attribute` is set to a non-empty value. */
  predicate EnvSet(env: Environment, attribute: string)
  {
    EnvVarName(attribute) in env && env[EnvVarName(attribute)] != ""
  }

  /** Each listed attribute takes its variable's value when that is non-empty,
      and every other attribute keeps its value. */
  lemma {:induction false} ApplyEnvironmentAt(attrs: Attrs, env: Environment, names: seq<string>, a: string)
    ensures a in ApplyEnvironment(attrs, env, names) <==> a in attrs || (a in names && EnvSet(env, a))
    ensures a in ApplyEnvironment(attrs, env, names) ==>
              ApplyEnvironment(attrs, env, names)[a]
                == if a in names && EnvSet(env, a) then Str(env[EnvVarName(a)]) else attrs[a]
  {
    if names != [] {
      var init := names[..|names| - 1];
      ApplyEnvironmentAt(attrs, env, init, a);
      assert a in names <==> a in init || a == names[|names| - 1] by {
        if a in names {
          var i :| 0 <= i < |names| && names[i] == a;
          if i < |names| - 1 { assert init[i] == a; }
        }
      }
    }
  }

  /** The attributes once the environment has been applied (lines 57-70). */
  function EffectiveAttrs(args: Args, env: Environment): Attrs
  {
    if args.fromEnvironment then ApplyEnvironment(InitialAttrs(args), env, EnvAttributes)
    else InitialAttrs(args)
  }

  // ---------------------------------------------------------------------------
  // Splitting a class list

  /** `s.split(sep)`: the pieces between separators, empty ones included. */
  function Split(s: string, sep: char): (parts: seq<string>)
    ensures |parts| >= 1
    ensures forall i :: 0 <= i < |parts| ==> sep !in parts[i]
  {
    if s == [] then [""]
    else
      var rest := Split(s[1..], sep);
      if s[0] == sep then [""] + rest
      else [[s[0]] + rest[0]] + rest[1..]
  }

  /** `sep.join(parts)`. */
  function Join(parts: seq<string>, sep: char): string
    requires |parts| >= 1
  {
    if |parts| == 1 then parts[0] else parts[0] + [sep] + Join(parts[1..], sep)
  }

  /** Joining the pieces gives back the string. */
  lemma {:induction false} JoinSplit(s: string, sep: char)
    ensures Join(Split(s, sep), sep) == s
  {
    if s != [] {
      var rest := Split(s[1..], sep);
      JoinSplit(s[1..], sep);
      if s[0] == sep {
        assert ([""] + rest)[1..] == rest;
      } else {
        var parts := [[s[0]] + rest[0]] + rest[1..];
        if |rest| > 1 {
          assert parts[1..] == rest[1..];
          assert Join(rest, sep) == rest[0] + [sep] + Join(rest[1..], sep);
        }
      }
    }
  }

  /** A piece without the separator splits to itself, and a separator after it
      starts the next piece. */
  lemma {:induction false} SplitPiece(p: string, rest: string, sep: char)
    requires sep !in p
    ensures Split(p, sep) == [p]
    ensures Split(p + [sep] + rest, sep) == [p] + Split(rest, sep)
  {
    if p == [] {
      assert [] + [sep] + rest == [sep] + rest;
      assert ([sep] + rest)[1..] == rest;
    } else {
      SplitPiece(p[1..], rest, sep);
      assert (p + [sep] + rest)[1..] == p[1..] + [sep] + rest;
      assert [p[0]] + p[1..] == p;
    }
  }

  /** Splitting joined pieces that hold no separator gives back the pieces. */
  lemma {:induction false} SplitJoin(parts: seq<string>, sep: char)
    requires |parts| >= 1
    requires forall i :: 0 <= i < |parts| ==> sep !in parts[i]
    ensures Split(Join(parts, sep), sep) == parts
  {
    if |parts| == 1 {
      SplitPiece(parts[0], [], sep);
    } else {
      SplitJoin(parts[1..], sep);
      SplitPiece(parts[0], Join(parts[1..], sep), sep);
      assert [parts[0]] + parts[1..] == parts;
    }
  }

  // ---------------------------------------------------------------------------
  // The class source and the validation

  /** `eval` of each piece, in order. */
  function ResolveAll(parts: seq<string>, resolve: string -> Value): seq<Value>
  {
    seq(|parts|, i requires 0 <= i < |parts| => resolve(parts[i]))
  }

  /** Lines 72-86: exactly one of a locustfile and classes must be given; a
      locustfile supplies the classes it defines, and a string of classes is
      split on commas and each name evaluated. */
  function ResolveClasses(attrs: Attrs, load: Value -> seq<Value>, resolve: string -> Value): Result<Attrs, ConfigError>
  {
    var locustfile := Get(attrs, "locustfile");
    var classes := Get(attrs, "classes");
    if locustfile == NoneValue && classes == NoneValue then Failure(MissingSource)
    else if Truthy(locustfile) && Truthy(classes) then Failure(BothSources)
    else if Truthy(locustfile) then Success(attrs["classes" := List(load(locustfile))])
    else if classes.Str? then Success(attrs["classes" := List(ResolveAll(Split(classes.s, ','), resolve))])
    else Success(attrs)
  }

  /** Lines 88-96 over `names`: the first falsy attribute is an error; the
      others are coerced one by one. */
  function Validate(attrs: Attrs, names: seq<string>): Result<Attrs, ConfigError>
  {
    if names == [] then Success(attrs)
    else
      var v := Get(attrs, names[0]);
      if !Truthy(v) then Failure(NotSet(names[0]))
      else if v.Str? && IsDigits(v.s) then Validate(attrs[names[0] := Int(ParseDigits(v.s))], names[1..])
      else Validate(attrs, names[1..])
  }

  /** The whole of `create_settings`. */
  function CreateSettingsSpec(args: Args, env: Environment, load: Value -> seq<Value>, resolve: string -> Value): Result<Attrs, ConfigError>
  {
    match ResolveClasses(EffectiveAttrs(args, env), load, resolve)
    case Failure(e) => Failure(e)
    case Success(attrs) => Validate(attrs, RequiredAttributes)
  }

  /** `create_settings`, step by step. */
  method CreateSettings(args: Args, env: Environment, load: Value -> seq<Value>, resolve: string -> Value)
    returns (result: Result<Attrs, ConfigError>)
    ensures result == CreateSettingsSpec(args, env, load, resolve)
  {
    var settings := InitialAttrs(args);
    if args.fromEnvironment {
      for k := 0 to |EnvAttributes|
        invariant settings == ApplyEnvironment(InitialAttrs(args), env, EnvAttributes[..k])
      {
        var attribute := EnvAttributes[k];
        var varName := "LOCUST_" + Upper(attribute);
        if varName in env && env[varName] != "" {
          settings := settings[attribute := Str(env[varName])];
        }
        assert EnvAttributes[..k + 1][..k] == EnvAttributes[..k];
      }
      assert EnvAttributes[..|EnvAttributes|] == EnvAttributes;
    }
    ghost var effective := settings;

    if Get(settings, "locustfile") == NoneValue && Get(settings, "classes") == NoneValue {
      return Failure(MissingSource);
    }
    if Truthy(Get(settings, "locustfile")) && Truthy(Get(settings, "classes")) {
      return Failure(BothSources);
    }
    if Truthy(Get(settings, "locustfile")) {
      settings := settings["classes" := List(load(Get(settings, "locustfile")))];
    } else if Get(settings, "classes").Str? {
      var parts := Split(Get(settings, "classes").s, ',');
      var classes := ResolveClassList(parts, resolve);
      settings := settings["classes" := List(classes)];
    }
    assert ResolveClasses(effective, load, resolve) == Success(settings);
    ghost var resolved := settings;

    for k := 0 to |RequiredAttributes|
      invariant Validate(settings, RequiredAttributes[k..]) == Validate(resolved, RequiredAttributes)
    {
      var attribute := RequiredAttributes[k];
      var val := Get(settings, attribute);
      if !Truthy(val) {
        return Failure(NotSet(attribute));
      }
      if val.Str? && IsDigits(val.s) {
        settings := settings[attribute := Int(ParseDigits(val.s))];
      }
      assert RequiredAttributes[k..][1..] == RequiredAttributes[k + 1..];
    }
    return Success(settings);
  }

  /** Lines 83-86: the split names are stored as strings, then replaced one
      by one, in place, by what they evaluate to. */
  method ResolveClassList(parts: seq<string>, resolve: string -> Value) returns (classes: seq<Value>)
    ensures |classes| == |parts|
    ensures forall i :: 0 <= i < |parts| ==> classes[i] == resolve(parts[i])
    ensures classes == ResolveAll(parts, resolve)
  {
    classes := seq(|parts|, i requires 0 <= i < |parts| => Str(parts[i]));
    for idx := 0 to |classes|
      invariant |classes| == |parts|
      invariant forall j :: 0 <= j < idx ==> classes[j] == resolve(parts[j])
      invariant forall j :: idx <= j < |classes| ==> classes[j] == Str(parts[j])
    {
      classes := classes[idx := resolve(classes[idx].s)];
    }
  }

  // ---------------------------------------------------------------------------
  // What the construction promises

  /** The value a validated attribute ends up with: `int(v)` for a string of
      digits, anything else as it is. */
  function Coerced(v: Value): (r: Value)
    ensures v.Str? && IsDigits(v.s) ==> r.Int? && r.i >= 0 && r.i == ParseDigits(v.s)
    ensures !(v.Str? && IsDigits(v.s)) ==> r == v
  {
    if v.Str? && IsDigits(v.s) then Int(ParseDigits(v.s)) else v
  }

  predicate Distinct(names: seq<string>)
  {
    forall i, j :: 0 <= i < j < |names| ==> names[i] != names[j]
  }

  /** One validation step: a truthy first name is coerced, and the rest of
      the names see the values they saw before. */
  lemma ValidateStep(attrs: Attrs, names: seq<string>)
    requires Distinct(names) && names != [] && Truthy(Get(attrs, names[0]))
    ensures var next := attrs[names[0] := Coerced(attrs[names[0]])];
      && Validate(attrs, names) == Validate(next, names[1..])
      && Distinct(names[1..])
      && next.Keys == attrs.Keys
      && (forall i :: 0 <= i < |names| - 1 ==> Get(next, names[1..][i]) == Get(attrs, names[1..][i]))
  {
    forall i | 0 <= i < |names| - 1 ensures names[1..][i] != names[0] {
      assert names[0] != names[i + 1];
    }
    var v := attrs[names[0]];
    if !(v.Str? && IsDigits(v.s)) {
      assert attrs[names[0] := v] == attrs;
    }
  }

  /** The validation succeeds exactly when every name is truthy. */
  lemma {:induction false} ValidateSucceeds(attrs: Attrs, names: seq<string>)
    requires Distinct(names)
    ensures Validate(attrs, names).Success? <==> forall i :: 0 <= i < |names| ==> Truthy(Get(attrs, names[i]))
  {
    if names != [] && Truthy(Get(attrs, names[0])) {
      ValidateStep(attrs, names);
      ValidateSucceeds(attrs[names[0] := Coerced(attrs[names[0]])], names[1..]);
      assert forall i :: 1 <= i < |names| ==> names[i] == names[1..][i - 1];
    }
  }

  /** A failed validation names the first falsy attribute. */
  lemma {:induction false} ValidateFirstError(attrs: Attrs, names: seq<string>)
    requires Distinct(names) && Validate(attrs, names).Failure?
    ensures exists i :: 0 <= i < |names| && Validate(attrs, names).error == NotSet(names[i])
              && !Truthy(Get(attrs, names[i]))
              && forall j :: 0 <= j < i ==> Truthy(Get(attrs, names[j]))
  {
    if Truthy(Get(attrs, names[0])) {
      var next := attrs[names[0] := Coerced(attrs[names[0]])];
      ValidateStep(attrs, names);
      ValidateFirstError(next, names[1..]);
      var i :| 0 <= i < |names| - 1 && Validate(next, names[1..]).error == NotSet(names[1..][i])
                && !Truthy(Get(next, names[1..][i]))
                && forall j :: 0 <= j < i ==> Truthy(Get(next, names[1..][j]));
      assert forall j :: 1 <= j <= i ==> names[j] == names[1..][j - 1];
      assert names[i + 1] == names[1..][i];
    } else {
      assert Validate(attrs, names).error == NotSet(names[0]);
    }
  }

  /** A passed validation coerces each name and changes nothing else. */
  lemma {:induction false} ValidateResult(attrs: Attrs, names: seq<string>)
    requires Distinct(names) && Validate(attrs, names).Success?
    ensures var out := Validate(attrs, names).value;
      && out.Keys == attrs.Keys
      && (forall i :: 0 <= i < |names| ==> names[i] in attrs && out[names[i]] == Coerced(attrs[names[i]]))
      && (forall k :: k in attrs && k !in names ==> out[k] == attrs[k])
  {
    if names != [] {
      var next := attrs[names[0] := Coerced(attrs[names[0]])];
      ValidateStep(attrs, names);
      ValidateResult(next, names[1..]);
      var out := Validate(attrs, names).value;
      forall i | 0 <= i < |names|
        ensures names[i] in attrs && out[names[i]] == Coerced(attrs[names[i]])
      {
        if i > 0 {
          assert names[i] == names[1..][i - 1];
          assert Get(next, names[i]) == Get(attrs, names[i]);
        }
      }
      forall k | k in attrs && k !in names ensures out[k] == attrs[k] {
        assert k !in names[1..];
      }
    }
  }

  /** The environment overrides each of the seven attributes whose variable is
      non-empty, and only those; `loglevel` exists only when so overridden. */
  lemma EnvironmentOverrides(args: Args, env: Environment, a: string)
    requires a in EnvAttributes
    ensures Get(EffectiveAttrs(args, env), a)
              == if args.fromEnvironment && EnvSet(env, a) then Str(env[EnvVarName(a)]) else Get(InitialAttrs(args), a)
    ensures a == "loglevel" ==> (a in EffectiveAttrs(args, env) <==> args.fromEnvironment && EnvSet(env, a))
  {
    ApplyEnvironmentAt(InitialAttrs(args), env, EnvAttributes, a);
  }

  /** The attributes the environment cannot touch keep their initial values. */
  lemma EnvironmentLeavesOthers(args: Args, env: Environment, a: string)
    requires a !in EnvAttributes
    ensures Get(EffectiveAttrs(args, env), a) == Get(InitialAttrs(args), a)
  {
    ApplyEnvironmentAt(InitialAttrs(args), env, EnvAttributes, a);
  }

  lemma ValidateErrorsNamed(attrs: Attrs, names: seq<string>)
    ensures Validate(attrs, names).Failure? ==> Validate(attrs, names).error.NotSet?
  {
    if names != [] {
      var v := Get(attrs, names[0]);
      if Truthy(v) {
        var next := if v.Str? && IsDigits(v.s) then attrs[names[0] := Int(ParseDigits(v.s))] else attrs;
        ValidateErrorsNamed(next, names[1..]);
      }
    }
  }

  /** Neither source is an error, and so is both; these two errors arise in
      no other case. */
  lemma SourceErrors(args: Args, env: Environment, load: Value -> seq<Value>, resolve: string -> Value)
    ensures var attrs := EffectiveAttrs(args, env);
      && (CreateSettingsSpec(args, env, load, resolve) == Failure(MissingSource) <==>
            Get(attrs, "locustfile") == NoneValue && Get(attrs, "classes") == NoneValue)
      && (CreateSettingsSpec(args, env, load, resolve) == Failure(BothSources) <==>
            Truthy(Get(attrs, "locustfile")) && Truthy(Get(attrs, "classes")))
  {
    var r := ResolveClasses(EffectiveAttrs(args, env), load, resolve);
    if r.Success? {
      ValidateErrorsNamed(r.value, RequiredAttributes);
    }
  }

  /** The required attributes of returned settings were truthy before
      coercion and are coerced after it. */
  lemma SuccessfulSettings(args: Args, env: Environment, load: Value -> seq<Value>, resolve: string -> Value)
    requires CreateSettingsSpec(args, env, load, resolve).Success?
    ensures var resolved := ResolveClasses(EffectiveAttrs(args, env), load, resolve);
      var out := CreateSettingsSpec(args, env, load, resolve).value;
      && resolved.Success?
      && (forall i :: 0 <= i < |RequiredAttributes| ==>
            var a := RequiredAttributes[i];
            a in resolved.value && Truthy(resolved.value[a]) && a in out && out[a] == Coerced(resolved.value[a]))
  {
    var resolved := ResolveClasses(EffectiveAttrs(args, env), load, resolve).value;
    ValidateSucceeds(resolved, RequiredAttributes);
    ValidateResult(resolved, RequiredAttributes);
  }

  /** An attribute the environment cannot touch leaves the construction with
      its initial value. */
  lemma UntouchedAttribute(args: Args, env: Environment, load: Value -> seq<Value>, resolve: string -> Value, a: string)
    requires CreateSettingsSpec(args, env, load, resolve).Success?
    requires a !in EnvAttributes
    ensures Get(CreateSettingsSpec(args, env, load, resolve).value, a) == Get(InitialAttrs(args), a)
  {
    var attrs := EffectiveAttrs(args, env);
    EnvironmentLeavesOthers(args, env, a);
    assert a != "classes" by { assert EnvAttributes[1] == "classes"; }
    var resolved := ResolveClasses(attrs, load, resolve).value;
    assert Get(resolved, a) == Get(attrs, a);
    assert a !in RequiredAttributes by {
      assert RequiredAttributes[0] == EnvAttributes[1];
      assert RequiredAttributes[1] == EnvAttributes[2];
      assert RequiredAttributes[2] == EnvAttributes[4];
      assert RequiredAttributes[3] == EnvAttributes[5];
    }
    ValidateResult(resolved, RequiredAttributes);
  }

  /** The attributes no input sets keep their fixed values in returned settings. */
  lemma FixedAttributes(args: Args, env: Environment, load: Value -> seq<Value>, resolve: string -> Value)
    requires CreateSettingsSpec(args, env, load, resolve).Success?
    ensures var out := CreateSettingsSpec(args, env, load, resolve).value;
      && Get(out, "tags") == NoneValue && Get(out, "exclude_tags") == NoneValue
      && Get(out, "stop_timeout") == NoneValue && Get(out, "step_load") == Bool(false)
  {
    UntouchedAttribute(args, env, load, resolve, "tags");
    UntouchedAttribute(args, env, load, resolve, "exclude_tags");
    UntouchedAttribute(args, env, load, resolve, "stop_timeout");
    UntouchedAttribute(args, env, load, resolve, "step_load");
  }

  /** The flag and `reset_stats` come from the arguments in returned settings. */
  lemma ArgumentAttributes(args: Args, env: Environment, load: Value -> seq<Value>, resolve: string -> Value)
    requires CreateSettingsSpec(args, env, load, resolve).Success?
    ensures var out := CreateSettingsSpec(args, env, load, resolve).value;
      && Get(out, "from_environment") == Bool(args.fromEnvironment)
      && Get(out, "reset_stats") == args.resetStats
  {
    UntouchedAttribute(args, env, load, resolve, "from_environment");
    UntouchedAttribute(args, env, load, resolve, "reset_stats");
  }

  // ---------------------------------------------------------------------------
  // The cases of tests/test_settings.py

  /** The attributes the examples read, before any override. */
  lemma InitialValues(args: Args)
    ensures Get(InitialAttrs(args), "locustfile") == args.locustfile
    ensures Get(InitialAttrs(args), "classes") == args.classes
    ensures Get(InitialAttrs(args), "host") == args.host
    ensures Get(InitialAttrs(args), "num_users") == args.numUsers
    ensures Get(InitialAttrs(args), "spawn_rate") == args.spawnRate
  {
  }

  /** Truthy required attributes pass the validation, each coerced. */
  lemma RequiredValidated(resolved: Attrs)
    requires Truthy(Get(resolved, "classes")) && Truthy(Get(resolved, "host"))
    requires Truthy(Get(resolved, "num_users")) && Truthy(Get(resolved, "spawn_rate"))
    ensures var r := Validate(resolved, RequiredAttributes);
      && r.Success?
      && Get(r.value, "classes") == Coerced(Get(resolved, "classes"))
      && Get(r.value, "host") == Coerced(Get(resolved, "host"))
      && Get(r.value, "num_users") == Coerced(Get(resolved, "num_users"))
      && Get(r.value, "spawn_rate") == Coerced(Get(resolved, "spawn_rate"))
  {
    ValidateSucceeds(resolved, RequiredAttributes);
    ValidateResult(resolved, RequiredAttributes);
    assert RequiredAttributes[0] == "classes" && RequiredAttributes[1] == "host";
    assert RequiredAttributes[2] == "num_users" && RequiredAttributes[3] == "spawn_rate";
  }

  /** A locustfile, a host and two numbers give settings with the classes the
      locustfile defines and everything else as passed. */
  lemma LocustfileExample(args: Args, load: Value -> seq<Value>, resolve: string -> Value)
    requires args == DefaultArgs().(locustfile := Str("tests/test_locustfile.py"), host := Str("http://dummy.host"),
                                    numUsers := Int(2), spawnRate := Int(1))
    requires load(args.locustfile) != []
    ensures var r := CreateSettingsSpec(args, map[], load, resolve);
      && r.Success?
      && Get(r.value, "classes") == List(load(args.locustfile))
      && Get(r.value, "host") == args.host
      && Get(r.value, "num_users") == Int(2) && Get(r.value, "spawn_rate") == Int(1)
  {
    InitialValues(args);
    var attrs := InitialAttrs(args);
    var resolved := attrs["classes" := List(load(args.locustfile))];
    assert ResolveClasses(attrs, load, resolve) == Success(resolved);
    assert Get(resolved, "host") == args.host;
    assert Get(resolved, "num_users") == Int(2);
    assert Get(resolved, "spawn_rate") == Int(1);
    RequiredValidated(resolved);
  }

  /** The same arguments without a host fail on the host. */
  lemma MissingHostExample(args: Args, load: Value -> seq<Value>, resolve: string -> Value)
    requires args == DefaultArgs().(locustfile := Str("tests/test_locustfile.py"), numUsers := Int(2), spawnRate := Int(1))
    requires load(args.locustfile) != []
    ensures CreateSettingsSpec(args, map[], load, resolve) == Failure(NotSet("host"))
  {
    InitialValues(args);
    var attrs := InitialAttrs(args);
    var resolved := attrs["classes" := List(load(args.locustfile))];
    assert ResolveClasses(attrs, load, resolve) == Success(resolved);
    assert Get(resolved, "classes") == List(load(args.locustfile));
    assert Get(resolved, "host") == NoneValue;
    ValidateFirstError(resolved, RequiredAttributes);
  }

  /** The variables the environment example sets. */
  lemma EnvVarNames()
    ensures EnvVarName("locustfile") == "LOCUST_LOCUSTFILE"
    ensures EnvVarName("classes") == "LOCUST_CLASSES"
    ensures EnvVarName("host") == "LOCUST_HOST"
    ensures EnvVarName("num_users") == "LOCUST_NUM_USERS"
    ensures EnvVarName("spawn_rate") == "LOCUST_SPAWN_RATE"
  {
  }

  /** The environment's locustfile supplies the classes when it sets no
      classes of its own and the arguments give none. */
  lemma EnvironmentResolved(args: Args, env: Environment, load: Value -> seq<Value>, resolve: string -> Value)
    requires args.fromEnvironment && args.classes == NoneValue
    requires EnvSet(env, "locustfile") && !EnvSet(env, "classes")
    ensures var attrs := EffectiveAttrs(args, env);
      ResolveClasses(attrs, load, resolve) == Success(attrs["classes" := List(load(Str(env[EnvVarName("locustfile")])))])
  {
    InitialValues(args);
    EnvironmentOverrides(args, env, "locustfile");
    EnvironmentOverrides(args, env, "classes");
  }

  /** With the environment supplying a locustfile, a host and both numbers
      and no classes, the settings succeed with the locustfile's classes and
      the variables' values, coerced. */
  lemma EnvironmentSettings(args: Args, env: Environment, load: Value -> seq<Value>, resolve: string -> Value)
    requires args.fromEnvironment && args.classes == NoneValue
    requires EnvSet(env, "locustfile") && !EnvSet(env, "classes")
    requires EnvSet(env, "host") && EnvSet(env, "num_users") && EnvSet(env, "spawn_rate")
    requires load(Str(env[EnvVarName("locustfile")])) != []
    ensures var r := CreateSettingsSpec(args, env, load, resolve);
      && r.Success?
      && Get(r.value, "classes") == List(load(Str(env[EnvVarName("locustfile")])))
      && Get(r.value, "host") == Coerced(Str(env[EnvVarName("host")]))
      && Get(r.value, "num_users") == Coerced(Str(env[EnvVarName("num_users")]))
      && Get(r.value, "spawn_rate") == Coerced(Str(env[EnvVarName("spawn_rate")]))
  {
    EnvironmentResolved(args, env, load, resolve);
    EnvironmentOverrides(args, env, "host");
    EnvironmentOverrides(args, env, "num_users");
    EnvironmentOverrides(args, env, "spawn_rate");
    var attrs := EffectiveAttrs(args, env);
    var resolved := attrs["classes" := List(load(Str(env[EnvVarName("locustfile")])))];
    assert Get(resolved, "host") == Get(attrs, "host");
    assert Get(resolved, "num_users") == Get(attrs, "num_users");
    assert Get(resolved, "spawn_rate") == Get(attrs, "spawn_rate");
    RequiredValidated(resolved);
  }

  /** Environment variables alone give the settings, their digit strings
      turned into integers. */
  lemma FromEnvironmentExample(args: Args, env: Environment, load: Value -> seq<Value>, resolve: string -> Value)
    requires args == DefaultArgs().(fromEnvironment := true)
    requires env == map["LOCUST_HOST" := "http://dummy.host", "LOCUST_LOCUSTFILE" := "tests/test_locustfile.py",
                        "LOCUST_NUM_USERS" := "2", "LOCUST_SPAWN_RATE" := "1"]
    requires load(Str("tests/test_locustfile.py")) != []
    ensures var r := CreateSettingsSpec(args, env, load, resolve);
      && r.Success?
      && Get(r.value, "classes") == List(load(Str("tests/test_locustfile.py")))
      && Get(r.value, "host") == Str("http://dummy.host")
      && Get(r.value, "num_users") == Int(2) && Get(r.value, "spawn_rate") == Int(1)
  {
    EnvVarNames();
    assert Coerced(Str("2")) == Int(2) by { assert ParseDigits("2") == 2; }
    assert Coerced(Str("1")) == Int(1) by { assert ParseDigits("1") == 1; }
    assert Coerced(Str("http://dummy.host")) == Str("http://dummy.host") by { assert "http://dummy.host"[0] == 'h'; }
    EnvironmentSettings(args, env, load, resolve);
  }

  /** Classes passed directly reach the settings unchanged. */
  lemma ClassesPassedExample(args: Args, user: Value, load: Value -> seq<Value>, resolve: string -> Value)
    requires args == DefaultArgs().(classes := List([user]), host := Str("http://dummy.host"),
                                    numUsers := Int(2), spawnRate := Int(1))
    ensures var r := CreateSettingsSpec(args, map[], load, resolve);
      r.Success? && Get(r.value, "classes") == List([user])
  {
    InitialValues(args);
    var attrs := InitialAttrs(args);
    assert ResolveClasses(attrs, load, resolve) == Success(attrs);
    RequiredValidated(attrs);
  }

  /** Truthiness is checked before the coercion, so the string "0" passes
      and becomes the integer 0, which would itself have been refused. */
  lemma ZeroStringAccepted(attrs: Attrs)
    requires Truthy(Get(attrs, "classes")) && Truthy(Get(attrs, "host")) && Truthy(Get(attrs, "spawn_rate"))
    requires Get(attrs, "num_users") == Str("0")
    ensures var r := Validate(attrs, RequiredAttributes);
      r.Success? && Get(r.value, "num_users") == Int(0)
    ensures Validate(attrs["num_users" := Int(0)], RequiredAttributes) == Failure(NotSet("num_users"))
  {
    assert Coerced(Str("0")) == Int(0) by { assert ParseDigits("0") == 0; }
    RequiredValidated(attrs);
    var zero := attrs["num_users" := Int(0)];
    assert Get(zero, "classes") == Get(attrs, "classes");
    assert Get(zero, "host") == Get(attrs, "host");
    assert RequiredAttributes[2] == "num_users";
    ValidateSucceeds(zero, RequiredAttributes);
    ValidateFirstError(zero, RequiredAttributes);
    var i :| 0 <= i < |RequiredAttributes| && Validate(zero, RequiredAttributes).error == NotSet(RequiredAttributes[i])
              && !Truthy(Get(zero, RequiredAttributes[i]))
              && forall j :: 0 <= j < i ==> Truthy(Get(zero, RequiredAttributes[j]));
    assert RequiredAttributes[0] == "classes" && RequiredAttributes[1] == "host";
    assert i == 2;
  }
}
