/** How the runtime singleton gets its configuration. */
module RuntimeInit {

  import opened Wrappers

  /** The manifests that can be parsed at some moment; parsing any other path ends
      the process. */
  type Files<C> = map<string, C>

  const DEFAULT_PATH := "./etc/mw_com_config.json"
  const MANIFEST_OPTION := "-service_instance_manifest"

  // ----- the command line

  /** The value behind the first occurrence of the option; `fallback` without an
      occurrence or with nothing behind it. */
  function OptionValue(args: seq<string>, option: string, fallback: string): string
  {
    if args == [] then fallback
    else if args[0] == option then if |args| > 1 then args[1] else fallback
    else OptionValue(args[1..], option, fallback)
  }

  lemma {:induction false} NoOptionNoValue(args: seq<string>, option: string, fallback: string)
    requires option !in args
    ensures OptionValue(args, option, fallback) == fallback
  {
    if args != [] {
      NoOptionNoValue(args[1..], option, fallback);
    }
  }

  /** Only the first occurrence counts. */
  lemma {:induction false} FirstOptionCounts(args: seq<string>, option: string, fallback: string, k: nat)
    requires k < |args| && args[k] == option && option !in args[..k]
    ensures OptionValue(args, option, fallback) == if k + 1 < |args| then args[k + 1] else fallback
  {
    if k > 0 {
      assert args[0] == args[..k][0];
      assert args[1..][..k - 1] == args[..k][1..];
      FirstOptionCounts(args[1..], option, fallback, k - 1);
    }
  }

  function ManifestPath(args: seq<string>): string { OptionValue(args, MANIFEST_OPTION, DEFAULT_PATH) }

  /** The `k`-th argument is the option, and it is the first that is. */
  ghost predicate FirstAt(args: seq<string>, k: nat)
  {
    && k < |args|
    && args[k] == "-service_instance_manifest"
    && forall j :: 0 <= j < k ==> args[j] != "-service_instance_manifest"
  }

  /** The path a command line names: what follows the first occurrence of the option,
      or the default path if there is none or nothing follows it. */
  ghost predicate NamesManifest(args: seq<string>, path: string)
  {
    && (forall k: nat :: FirstAt(args, k) ==>
          path == if k + 1 < |args| then args[k + 1] else "./etc/mw_com_config.json")
    && ("-service_instance_manifest" !in args ==> path == "./etc/mw_com_config.json")
  }

  /** A command line names exactly one path. */
  lemma ManifestPathIsNamed(args: seq<string>, path: string)
    ensures NamesManifest(args, path) <==> path == ManifestPath(args)
  {
    forall k: nat | FirstAt(args, k)
      ensures ManifestPath(args) == if k + 1 < |args| then args[k + 1] else "./etc/mw_com_config.json"
    {
      FirstOptionCounts(args, MANIFEST_OPTION, DEFAULT_PATH, k);
    }
    if MANIFEST_OPTION in args {
      var k := FirstOption(args);
      assert forall j :: 0 <= j < k ==> args[j] == args[..k][j];
      assert FirstAt(args, k);
    } else {
      NoOptionNoValue(args, MANIFEST_OPTION, DEFAULT_PATH);
    }
  }

  lemma FirstOption(args: seq<string>) returns (k: nat)
    requires MANIFEST_OPTION in args
    ensures k < |args| && args[k] == MANIFEST_OPTION && MANIFEST_OPTION !in args[..k]
  {
    k := 0;
    while args[k] != MANIFEST_OPTION
      invariant k < |args| && MANIFEST_OPTION !in args[..k]
      decreases |args| - k
    {
      assert args[..k + 1] == args[..k] + [args[k]];
      assert MANIFEST_OPTION in args[k + 1..];
      k := k + 1;
    }
  }

  /** The scan of the arguments. */
  method FindManifestPath(args: seq<string>, option: string, fallback: string) returns (path: string)
    ensures path == OptionValue(args, option, fallback)
  {
    var argNum := 0;
    while argNum < |args|
      invariant 0 <= argNum <= |args| && option !in args[..argNum]
    {
      if args[argNum] == option {
        FirstOptionCounts(args, option, fallback, argNum);
        return if argNum + 1 < |args| then args[argNum + 1] else fallback;
      }
      assert args[..argNum + 1] == args[..argNum] + [args[argNum]];
      argNum := argNum + 1;
    }
    assert args[..|args|] == args;
    NoOptionNoValue(args, option, fallback);
    return fallback;
  }

  // ----- the singleton

  datatype Answer<C> = Mock | Real(config: C) | Terminated

  class Runtime<C> {
    var mock: bool                          // a mock is injected
    var initializationConfig: Option<C>
    var locked: bool
    var instance: Option<C>                 // the configuration of the function-local static
    var terminated: bool

    constructor ()
      ensures !mock && initializationConfig == None && !locked && instance == None && !terminated
    {
      mock, initializationConfig, locked, instance, terminated := false, None, false, None, false;
    }

    ghost predicate Valid()
      reads this
    {
      && (locked <==> instance.Some?)
      && (locked ==> initializationConfig == None)
    }

    /** The shared end of every `Initialize`: the parsed configuration is stored,
        or the process ends. */
    method StoreConfiguration(parsed: Option<C>)
      modifies this`initializationConfig, this`terminated
      ensures parsed.Some? ==> initializationConfig == parsed && terminated == old(terminated)
      ensures parsed.None? ==> terminated && initializationConfig == old(initializationConfig)
    {
      if parsed.None? {
        terminated := true;
      } else {
        initializationConfig := parsed;
      }
    }

    method Initialize(files: Files<C>)
      requires Valid() && !terminated
      modifies this`initializationConfig, this`terminated
      ensures Valid()
      ensures locked ==> initializationConfig == old(initializationConfig) && !terminated
      ensures !locked ==> Stored(old(initializationConfig), Parse(files, DEFAULT_PATH))
    {
      if locked {
        return;
      }
      StoreConfiguration(Parse(files, DEFAULT_PATH));
    }

    method InitializeFromBuffer(parsed: Option<C>)
      requires Valid() && !terminated
      modifies this`initializationConfig, this`terminated
      ensures Valid()
      ensures locked ==> initializationConfig == old(initializationConfig) && !terminated
      ensures !locked ==> Stored(old(initializationConfig), parsed)
    {
      if locked {
        return;
      }
      StoreConfiguration(parsed);
    }

    method InitializeFromArguments(args: seq<string>, files: Files<C>)
      requires Valid() && !terminated
      modifies this`initializationConfig, this`terminated
      ensures Valid()
      ensures locked ==> initializationConfig == old(initializationConfig) && !terminated
      ensures !locked ==> Stored(old(initializationConfig), Parse(files, ManifestPath(args)))
      ensures !locked ==>
                forall path :: NamesManifest(args, path) ==> Stored(old(initializationConfig), Parse(files, path))
    {
      forall path | NamesManifest(args, path) ensures path == ManifestPath(args) { ManifestPathIsNamed(args, path); }
      if locked {
        return;
      }
      var path := FindManifestPath(args, MANIFEST_OPTION, DEFAULT_PATH);
      StoreConfiguration(Parse(files, path));
    }

    ghost predicate Stored(before: Option<C>, parsed: Option<C>)
      reads this
    {
      if parsed.Some? then initializationConfig == parsed && !terminated
      else terminated && initializationConfig == before
    }

    method InjectMock(present: bool)
      modifies this`mock
      ensures mock == present
    {
      mock := present;
    }

    /** The mock if there is one; otherwise the instance, which the first such
        call creates for good. */
    method GetInstance(files: Files<C>) returns (answer: Answer<C>)
      requires Valid() && !terminated
      modifies this`initializationConfig, this`locked, this`instance, this`terminated
      ensures !terminated ==> Valid()
      ensures mock ==> answer == Mock && locked == old(locked) && instance == old(instance)
                       && initializationConfig == old(initializationConfig) && !terminated
      ensures !mock && old(instance).Some? ==>
                answer == Real(old(instance).value) && instance == old(instance) && !terminated
      ensures !mock && old(instance).None? ==>
                var config := if old(initializationConfig).Some? then old(initializationConfig)
                              else Parse(files, DEFAULT_PATH);
                if config.Some? then answer == Real(config.value) && instance == config && !terminated
                else answer == Terminated && terminated && instance == None
    {
      if mock {
        return Mock;
      }
      if instance.None? {
        locked := true;
        if initializationConfig.None? {
          var config := Parse(files, DEFAULT_PATH);
          if config.None? {
            terminated := true;
            return Terminated;
          }
          instance := config;
        } else {
          instance := initializationConfig;
          initializationConfig := None;
        }
      }
      return Real(instance.value);
    }
  }

  function Parse<C>(files: Files<C>, path: string): Option<C>
  {
    if path in files then Some(files[path]) else None
  }

  // ----- whole runs

  datatype Op<C> =
    | Initialize(files: Files<C>)
    | InitializeFromBuffer(parsed: Option<C>)
    | InitializeFromArguments(args: seq<string>, files: Files<C>)
    | InjectMock(present: bool)
    | GetInstance(files: Files<C>)

  predicate IsInitialize<C>(op: Op<C>)
  {
    op.Initialize? || op.InitializeFromBuffer? || op.InitializeFromArguments?
  }

  /** What the manifest or buffer of an `Initialize` holds. */
  function ConfigOf<C>(op: Op<C>): Option<C>
    requires IsInitialize(op)
  {
    match op
    case Initialize(files) => Parse(files, DEFAULT_PATH)
    case InitializeFromBuffer(parsed) => parsed
    case InitializeFromArguments(args, files) => Parse(files, ManifestPath(args))
  }

  /** The same from the files alone: the default manifest, the buffer, or the manifest
      the arguments name; none if there is no such file. */
  lemma ConfigIsInTheFiles<C>(op: Op<C>)
    requires IsInitialize(op)
    ensures op.Initialize? ==>
              ConfigOf(op) == if "./etc/mw_com_config.json" in op.files
                              then Some(op.files["./etc/mw_com_config.json"]) else None
    ensures op.InitializeFromBuffer? ==> ConfigOf(op) == op.parsed
    ensures op.InitializeFromArguments? ==>
              forall path :: NamesManifest(op.args, path) ==>
                ConfigOf(op) == if path in op.files then Some(op.files[path]) else None
  {
    if op.InitializeFromArguments? {
      forall path | NamesManifest(op.args, path) ensures path == ManifestPath(op.args) {
        ManifestPathIsNamed(op.args, path);
      }
    }
  }

  /** After the first `k` operations no mock is injected. */
  predicate Unmocked<C>(ops: seq<Op<C>>, k: nat)
    requires k <= |ops|
  {
    if k == 0 then true
    else if ops[k - 1].InjectMock? then !ops[k - 1].present
    else Unmocked(ops, k - 1)
  }

  /** The last `InjectMock` before decides, and without one there is no mock. */
  lemma {:induction false} LastInjectionCounts<C>(ops: seq<Op<C>>, k: nat)
    requires k <= |ops|
    ensures Unmocked(ops, k) <==>
              forall i :: 0 <= i < k && ops[i].InjectMock? && (forall j :: i < j < k ==> !ops[j].InjectMock?) ==>
                !ops[i].present
  {
    if k > 0 {
      LastInjectionCounts(ops, k - 1);
    }
  }

  /** Operation `k` is the first call that reaches the real instance. */
  ghost predicate FirstGet<C>(ops: seq<Op<C>>, k: nat)
  {
    && k < |ops| && ops[k].GetInstance? && Unmocked(ops, k)
    && forall i: nat :: i < k && ops[i].GetInstance? ==> !Unmocked(ops, i)
  }

  /** Operation `k` is the last `Initialize` of the first `n`. */
  ghost predicate LastInitialize<C>(ops: seq<Op<C>>, n: nat, k: nat)
  {
    k < n <= |ops| && IsInitialize(ops[k]) && forall i: nat :: k < i < n ==> !IsInitialize(ops[i])
  }

  /** What is stored when the first `n` operations contain no effective
      `GetInstance`: the configuration of the last `Initialize`, if any. */
  ghost predicate StoredBy<C>(ops: seq<Op<C>>, n: nat, config: Option<C>)
    requires n <= |ops|
  {
    if config.None? then forall i: nat :: i < n ==> !IsInitialize(ops[i])
    else exists i: nat :: LastInitialize(ops, n, i) && ConfigOf(ops[i]) == config
  }

  /** The configuration the instance is created with at operation `k`: that of the
      last `Initialize` before it, or the default one. */
  ghost predicate CreatedWith<C>(ops: seq<Op<C>>, k: nat, config: C)
    requires k < |ops| && ops[k].GetInstance?
  {
    if forall i: nat :: i < k ==> !IsInitialize(ops[i]) then Parse(ops[k].files, DEFAULT_PATH) == Some(config)
    else StoredBy(ops, k, Some(config))
  }

  /** The configuration in force after `n` operations, told from the operations alone. */
  ghost predicate InForce<C>(ops: seq<Op<C>>, n: nat, config: Option<C>)
  {
    if config.None? then forall k: nat :: k < n ==> !FirstGet(ops, k)
    else exists k: nat :: k < n && FirstGet(ops, k) && CreatedWith(ops, k, config.value)
  }

  lemma InForceIsUnique<C>(ops: seq<Op<C>>, n: nat, c: Option<C>, d: Option<C>)
    requires InForce(ops, n, c) && InForce(ops, n, d)
    ensures c == d
  {
    if c.Some? && d.Some? {
      var j: nat :| j < n && FirstGet(ops, j) && CreatedWith(ops, j, c.value);
      var k: nat :| k < n && FirstGet(ops, k) && CreatedWith(ops, k, d.value);
      assert j == k;
      if exists i: nat :: i < k && IsInitialize(ops[i]) {
        var x: nat :| LastInitialize(ops, k, x) && ConfigOf(ops[x]) == c;
        var y: nat :| LastInitialize(ops, k, y) && ConfigOf(ops[y]) == d;
        assert x == y;
      }
    }
  }

  /** Once there is a configuration, nothing that follows changes it. */
  lemma InForceForGood<C>(ops: seq<Op<C>>, n: nat, m: nat, config: C)
    requires InForce(ops, n, Some(config)) && n <= m
    ensures InForce(ops, m, Some(config))
  {
  }

  method PerformOne<C>(rt: Runtime<C>, op: Op<C>)
    requires rt.Valid() && !rt.terminated
    modifies rt
    ensures rt.terminated <==>
              && old(rt.instance).None?
              && ((IsInitialize(op) && ConfigOf(op).None?)
                  || (op.GetInstance? && !old(rt.mock) && old(rt.initializationConfig).None?
                      && Parse(op.files, DEFAULT_PATH).None?))
    ensures !rt.terminated ==> rt.Valid()
    ensures !rt.terminated ==>
              && rt.mock == (if op.InjectMock? then op.present else old(rt.mock))
              && rt.instance ==
                   (if !op.GetInstance? || old(rt.mock) || old(rt.instance).Some? then old(rt.instance)
                    else if old(rt.initializationConfig).Some? then old(rt.initializationConfig)
                    else Parse(op.files, DEFAULT_PATH))
              && (op.GetInstance? && !rt.mock ==> rt.instance.Some?)
              && (rt.instance.None? ==>
                    rt.initializationConfig == if IsInitialize(op) then ConfigOf(op) else old(rt.initializationConfig))
              && (rt.instance.None? && IsInitialize(op) ==> ConfigOf(op).Some?)
  {
    match op
    case Initialize(files) => rt.Initialize(files);
    case InitializeFromBuffer(parsed) => rt.InitializeFromBuffer(parsed);
    case InitializeFromArguments(args, files) => rt.InitializeFromArguments(args, files);
    case InjectMock(present) => rt.InjectMock(present);
    case GetInstance(files) => var _ := rt.GetInstance(files);
  }

  lemma StoredNext<C>(ops: seq<Op<C>>, n: nat, before: Option<C>, after: Option<C>)
    requires n < |ops| && StoredBy(ops, n, before)
    requires if IsInitialize(ops[n]) then after == ConfigOf(ops[n]) && after.Some? else after == before
    ensures StoredBy(ops, n + 1, after)
  {
    if IsInitialize(ops[n]) {
      assert LastInitialize(ops, n + 1, n);
    } else if before.Some? {
      var i: nat :| LastInitialize(ops, n, i) && ConfigOf(ops[i]) == before;
      assert LastInitialize(ops, n + 1, i);
    }
  }

  /** Nobody reached the real instance in the first `n` operations. */
  ghost predicate Untouched<C>(ops: seq<Op<C>>, n: nat)
    requires n <= |ops|
  {
    forall i: nat :: i < n && ops[i].GetInstance? ==> !Unmocked(ops, i)
  }

  lemma InstanceAppears<C>(ops: seq<Op<C>>, n: nat, stored: Option<C>, after: C)
    requires n < |ops| && Untouched(ops, n) && ops[n].GetInstance? && Unmocked(ops, n) && StoredBy(ops, n, stored)
    requires Some(after) == if stored.Some? then stored else Parse(ops[n].files, DEFAULT_PATH)
    ensures InForce(ops, n + 1, Some(after))
  {
    assert FirstGet(ops, n);
    if stored.Some? {
      var i: nat :| LastInitialize(ops, n, i) && ConfigOf(ops[i]) == stored;
      assert IsInitialize(ops[i]);
    }
    assert CreatedWith(ops, n, after);
  }

  /** Operation `n` ends the process: nobody reached the real instance before, and
      either it is an `Initialize` that cannot be parsed or it is the first to
      reach the instance, nothing was stored, and the default manifest cannot be
      parsed. */
  ghost predicate EndsProcess<C>(ops: seq<Op<C>>, n: nat)
    requires n < |ops|
  {
    && Untouched(ops, n)
    && if IsInitialize(ops[n]) then ConfigOf(ops[n]).None?
       else
         && ops[n].GetInstance? && Unmocked(ops, n)
         && (forall i: nat :: i < n ==> !IsInitialize(ops[i]))
         && Parse(ops[n].files, DEFAULT_PATH).None?
  }

  lemma InForceIsTouched<C>(ops: seq<Op<C>>, n: nat, config: C)
    requires n <= |ops| && InForce(ops, n, Some(config))
    ensures !Untouched(ops, n)
  {
  }

  lemma StoredIff<C>(ops: seq<Op<C>>, n: nat, stored: Option<C>)
    requires n <= |ops| && StoredBy(ops, n, stored)
    ensures stored.None? <==> forall i: nat :: i < n ==> !IsInitialize(ops[i])
  {
  }

  lemma StillUntouched<C>(ops: seq<Op<C>>, n: nat)
    requires n < |ops| && Untouched(ops, n) && !(ops[n].GetInstance? && Unmocked(ops, n))
    ensures Untouched(ops, n + 1)
  {
  }

  lemma UntouchedIsNotInForce<C>(ops: seq<Op<C>>, n: nat)
    requires n <= |ops| && Untouched(ops, n)
    ensures InForce(ops, n, None)
  {
  }

  /** The object after `n` operations. */
  ghost predicate After<C>(rt: Runtime<C>, ops: seq<Op<C>>, n: nat)
    requires n <= |ops|
    reads rt
  {
    rt.terminated ||
    (&& rt.Valid() && rt.mock == !Unmocked(ops, n)
     && if rt.instance.Some? then InForce(ops, n, rt.instance)
        else Untouched(ops, n) && StoredBy(ops, n, rt.initializationConfig))
  }

  method ExecuteOne<C>(rt: Runtime<C>, ops: seq<Op<C>>, n: nat)
    requires n < |ops| && After(rt, ops, n) && !rt.terminated
    modifies rt
    ensures After(rt, ops, n + 1)
    ensures rt.terminated <==> EndsProcess(ops, n)
  {
    hide InForce, Untouched, StoredBy;
    var op := ops[n];
    ghost var stored, before := rt.initializationConfig, rt.instance;
    PerformOne(rt, op);
    if before.Some? {
      InForceIsTouched(ops, n, before.value);
      InForceForGood(ops, n, n + 1, before.value);
    } else {
      StoredIff(ops, n, stored);
      if rt.terminated {
      } else if rt.instance.Some? {
        InstanceAppears(ops, n, stored, rt.instance.value);
      } else {
        StillUntouched(ops, n);
        StoredNext(ops, n, stored, rt.initializationConfig);
      }
    }
  }

  /** For every sequence of operations: the process ends exactly if some operation
      is one that ends it, and otherwise the instance has exactly the
      configuration the reference definition names. */
  method Execute<C>(ops: seq<Op<C>>) returns (rt: Runtime<C>)
    ensures fresh(rt) && (!rt.terminated ==> InForce(ops, |ops|, rt.instance))
    ensures rt.terminated <==> exists k: nat :: k < |ops| && EndsProcess(ops, k)
  {
    hide EndsProcess;
    rt := new Runtime();
    var n := 0;
    while n < |ops| && !rt.terminated
      invariant 0 <= n <= |ops| && fresh(rt) && After(rt, ops, n)
      invariant rt.terminated <==> exists k: nat :: k < n && EndsProcess(ops, k)
      decreases |ops| - n
    {
      ExecuteOne(rt, ops, n);
      n := n + 1;
    }
    if !rt.terminated && rt.instance.None? {
      UntouchedIsNotInForce(ops, n);
    }
  }
}
