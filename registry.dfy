/** The dancer registry of lambada/__init__.py: `Dancer` records wrapping a
    user function, and the `Lambada` object that owns the name-keyed table of
    dancers, builds the base deployment configuration and dispatches an
    invocation to the dancer named by the context. */
module Registry {
  import opened Values
  import opened Context

  /** How one call of a user function ends. */
  datatype Behaviour = Returns(result: Value) | Raises(exception: Exception)

  /** A user's handler function: its `__name__` and, since its code is
      otherwise opaque, how a call ends for each event it may receive. */
  datatype UserFunction = UserFunction(funcName: string, behaviour: Value -> Behaviour)

  /** The arguments a user function received, exactly as they were passed. */
  datatype Invocation = Invocation(func: UserFunction, event: Value, context: LambdaContext)

  /** How a call that discards its result ends: normally, or by an exception. */
  datatype Outcome = ReturnedNone | Raised(exception: Exception)

  /** A registered handler and its metadata. `function` is the user function;
      the `functools.wraps` wrapper around it forwards its arguments and
      result untouched, so the model calls the user function directly. */
  datatype Dancer = Dancer(
    func: UserFunction,
    name: string,
    description: Value,
    timeout: Value,
    memory: Value)
  {
    /** `Dancer.__call__`: hands `(event, context)` to the wrapped function
        and discards what it returns; an exception it raises propagates. */
    function Call(event: Value, context: LambdaContext): (r: (Invocation, Outcome))
      ensures r.0 == Invocation(func, event, context)
      ensures r.1.ReturnedNone? <==> func.behaviour(event).Returns?
      ensures r.1.Raised? ==> r.1.exception == func.behaviour(event).exception
    {
      var received := Invocation(func, event, context);
      match func.behaviour(event)
      case Returns(_) => (received, ReturnedNone)
      case Raises(e) => (received, Raised(e))
    }
  }

  /** The `name` argument of `Lambada.dancer`: left out, a string, or the
      decorated function itself when `dancer` is used as a bare decorator. */
  datatype NameArg = Omitted | Given(name: string) | Decorated(func: UserFunction)

  /** The arguments captured by the decorator that parameterised use returns. */
  datatype Options = Options(name: NameArg, description: Value, timeout: Value, memory: Value)

  /** What `Lambada.dancer` returns: the registered dancer (bare use) or a
      decorator still waiting for its function (parameterised use). */
  datatype DancerResult = Registered(entry: Dancer) | Decorator(options: Options)

  /** A name that is present, truthy and not callable. */
  predicate NameSupplied(n: NameArg)
  {
    n.Given? && n.name != ""
  }

  /** The key a function is registered under. */
  function ResolveName(n: NameArg, func: UserFunction): (r: string)
    ensures NameSupplied(n) ==> r == n.name
    ensures !NameSupplied(n) ==> r == func.funcName
  {
    // `(not name) or callable(name)`
    if n.Omitted? || (n.Given? && n.name == "") || n.Decorated? then func.funcName else n.name
  }

  /** Every entry sits under its own name. */
  ghost predicate KeyedByName(dancers: map<string, Dancer>)
  {
    forall k :: k in dancers ==> dancers[k].name == k
  }

  /** One registration: the entry's name now maps to the entry, overwriting
      any earlier entry of that name, and every other key is untouched. */
  function Register(dancers: map<string, Dancer>, entry: Dancer): (r: map<string, Dancer>)
    ensures r.Keys == dancers.Keys + {entry.name}
    ensures r[entry.name] == entry
    ensures forall k :: k in dancers && k != entry.name ==> r[k] == dancers[k]
    ensures KeyedByName(dancers) ==> KeyedByName(r)
  {
    dancers[entry.name := entry]
  }

  /** The fixed start of the message raised when no dancer matches. */
  const NoMatchPrefix: string := "No Matching Dancer for the tune: "

  /** The error raised when no dancer answers to `name`. */
  function NoMatchingDancer(name: string): (e: Exception)
    ensures e.Error? && |e.message| == |NoMatchPrefix| + |name|
    ensures e.message[..|NoMatchPrefix|] == NoMatchPrefix
    ensures e.message[|NoMatchPrefix|..] == name
  {
    Error(NoMatchPrefix + name)
  }

  /** `Lambada.__call__` on the table `dancers` for the context name `name`:
      the call the handler received, if any, and how dispatch ended. A
      KeyError escaping the handler is reported like a missing dancer. */
  function Dispatched(dancers: map<string, Dancer>, name: string, event: Value, context: LambdaContext)
    : (r: (Option<Invocation>, Outcome))
    ensures name !in dancers ==> r == (None, Raised(NoMatchingDancer(name)))
    ensures name in dancers ==> r.0 == Some(Invocation(dancers[name].func, event, context))
    ensures name in dancers && dancers[name].func.behaviour(event).Returns? ==> r.1 == ReturnedNone
    ensures name in dancers && dancers[name].func.behaviour(event).Raises? ==>
      var e := dancers[name].func.behaviour(event).exception;
      r.1 == Raised(if e.KeyError? then NoMatchingDancer(name) else e)
  {
    if name !in dancers then (None, Raised(NoMatchingDancer(name)))
    else
      var (received, outcome) := dancers[name].Call(event, context);
      match outcome
      case Raised(KeyError(_)) => (Some(received), Raised(NoMatchingDancer(name)))
      case _ => (Some(received), outcome)
  }

  /** The recognised keys of the base configuration. */
  const ConfigKeys: set<string> :=
    {"extra_files", "handler", "ignore_files", "memory", "region", "role",
     "timeout", "vpc", "security_groups", "subnets"}

  /** The base configuration `Lambada.__init__` builds from its arguments. */
  function BaseConfig(
    handler: Value, region: Value, role: Value, timeout: Value, memory: Value,
    extraFiles: Value, ignoreFiles: Value, vpc: Value, subnets: Value, securityGroups: Value)
    : (c: map<string, Value>)
    ensures c.Keys == ConfigKeys
    ensures c["extra_files"] == (if Truthy(extraFiles) then extraFiles else List([]))
    ensures c["ignore_files"] == (if Truthy(ignoreFiles) then ignoreFiles else List([]))
    ensures c["handler"] == handler && c["region"] == region && c["role"] == role
    ensures c["timeout"] == timeout && c["memory"] == memory
    ensures c["vpc"] == vpc && c["security_groups"] == securityGroups && c["subnets"] == subnets
  {
    map[
      "extra_files" := if Truthy(extraFiles) then extraFiles else List([]),
      "handler" := handler,
      "ignore_files" := if Truthy(ignoreFiles) then ignoreFiles else List([]),
      "memory" := memory,
      "region" := region,
      "role" := role,
      "timeout" := timeout,
      "vpc" := vpc,
      "security_groups" := securityGroups,
      "subnets" := subnets
    ]
  }

  class Lambada {
    var config: map<string, Value>
    var dancers: map<string, Dancer>

    ghost predicate Valid()
      reads this
    {
      config.Keys == ConfigKeys && KeyedByName(dancers)
    }

    /** Builds the base configuration and an empty table of dancers. */
    constructor(
      handler: Value := Str("lambda.tune"),
      region: Value := Null,
      role: Value := Null,
      timeout: Value := Int(30),
      memory: Value := Int(128),
      extraFiles: Value := Null,
      ignoreFiles: Value := Null,
      vpc: Value := Null,
      subnets: Value := Null,
      securityGroups: Value := Null)
      ensures Valid()
      ensures dancers == map[]
      ensures config == BaseConfig(handler, region, role, timeout, memory,
                                   extraFiles, ignoreFiles, vpc, subnets, securityGroups)
    {
      config := BaseConfig(handler, region, role, timeout, memory,
                           extraFiles, ignoreFiles, vpc, subnets, securityGroups);
      dancers := map[];
    }

    /** `Lambada.__call__`: looks up the dancer named by the context and
        calls it with `(event, context)`; the table is left as it was. */
    method Call(event: Value, context: LambdaContext) returns (call: Option<Invocation>, outcome: Outcome)
      requires Valid()
      ensures (call, outcome) == Dispatched(dancers, context.functionName, event, context)
      ensures call.Some? ==>
        context.functionName in dancers && dancers[context.functionName].name == context.functionName
    {
      var name := context.functionName;
      if name in dancers {
        var received := dancers[name].Call(event, context);
        call := Some(received.0);
        if received.1.Raised? && received.1.exception.KeyError? {
          outcome := Raised(NoMatchingDancer(name));
        } else {
          outcome := received.1;
        }
      } else {
        call, outcome := None, Raised(NoMatchingDancer(name));
      }
    }

    /** The inner decorator `_dancer`: registers `func` under its resolved
        name and returns the entry it stored. */
    method ApplyDecorator(options: Options, func: UserFunction) returns (entry: Dancer)
      requires Valid()
      modifies this
      ensures Valid()
      ensures entry == Dancer(func, ResolveName(options.name, func),
                              options.description, options.timeout, options.memory)
      ensures dancers == Register(old(dancers), entry)
      ensures config == old(config)
    {
      var realName := ResolveName(options.name, func);
      dancers := dancers[realName := Dancer(func, realName, options.description, options.timeout, options.memory)];
      entry := dancers[realName];
    }

    /** `Lambada.dancer`: used bare (`name` is the decorated function) it
        registers at once and returns the dancer; used with arguments it
        registers nothing and returns the decorator to apply later. */
    method DancerDecorator(name: NameArg, description: Value := Null, timeout: Value := Null, memory: Value := Null)
      returns (r: DancerResult)
      requires Valid()
      modifies this
      ensures Valid()
      ensures name.Decorated? ==>
        && r == Registered(Dancer(name.func, name.func.funcName, description, timeout, memory))
        && dancers == Register(old(dancers), r.entry)
      ensures !name.Decorated? ==>
        r == Decorator(Options(name, description, timeout, memory)) && dancers == old(dancers)
      ensures config == old(config)
    {
      var options := Options(name, description, timeout, memory);
      if name.Decorated? {
        var entry := ApplyDecorator(options, name.func);
        r := Registered(entry);
      } else {
        r := Decorator(options);
      }
    }
  }

  /** Registrations applied in order, as decorators run while a module loads. */
  function RegisterAll(dancers: map<string, Dancer>, entries: seq<Dancer>): (r: map<string, Dancer>)
    decreases |entries|
  {
    if entries == [] then dancers
    else Register(RegisterAll(dancers, entries[..|entries| - 1]), entries[|entries| - 1])
  }

  function Names(entries: seq<Dancer>): set<string>
  {
    set i | 0 <= i < |entries| :: entries[i].name
  }

  /** After a run of registrations the table holds exactly the old keys and
      the registered names. */
  lemma {:induction false} RegisterAllKeys(dancers: map<string, Dancer>, entries: seq<Dancer>)
    ensures RegisterAll(dancers, entries).Keys == dancers.Keys + Names(entries)
  {
    if entries != [] {
      var init := entries[..|entries| - 1];
      RegisterAllKeys(dancers, init);
      assert Names(entries) == Names(init) + {entries[|entries| - 1].name} by {
        forall x | x in Names(entries) ensures x in Names(init) + {entries[|entries| - 1].name} {
          var i :| 0 <= i < |entries| && entries[i].name == x;
          if i < |entries| - 1 { assert init[i] == entries[i]; }
        }
        forall x | x in Names(init) ensures x in Names(entries) {
          var i :| 0 <= i < |init| && init[i].name == x;
          assert entries[i] == init[i];
        }
      }
    }
  }

  /** Last write wins: a name maps to the last entry registered under it. */
  lemma {:induction false} LastWriteWins(dancers: map<string, Dancer>, entries: seq<Dancer>, i: nat)
    requires i < |entries|
    requires forall j :: i < j < |entries| ==> entries[j].name != entries[i].name
    ensures entries[i].name in RegisterAll(dancers, entries)
    ensures RegisterAll(dancers, entries)[entries[i].name] == entries[i]
  {
    var last := |entries| - 1;
    if i < last {
      var init := entries[..last];
      assert init[i] == entries[i];
      LastWriteWins(dancers, init, i);
      RegisterAllKeys(dancers, init);
    }
  }

  /** Names nobody registered keep their old entries. */
  lemma {:induction false} UntouchedKeep(dancers: map<string, Dancer>, entries: seq<Dancer>, k: string)
    requires k in dancers && k !in Names(entries)
    ensures k in RegisterAll(dancers, entries) && RegisterAll(dancers, entries)[k] == dancers[k]
  {
    if entries != [] {
      var init := entries[..|entries| - 1];
      assert Names(init) <= Names(entries) by {
        forall x | x in Names(init) ensures x in Names(entries) {
          var i :| 0 <= i < |init| && init[i].name == x;
          assert entries[i] == init[i];
        }
      }
      assert entries[|entries| - 1].name in Names(entries);
      UntouchedKeep(dancers, init, k);
    }
  }

  /** Registrations keep every entry under its own name. */
  lemma {:induction false} RegisterAllKeyed(dancers: map<string, Dancer>, entries: seq<Dancer>)
    requires KeyedByName(dancers)
    ensures KeyedByName(RegisterAll(dancers, entries))
  {
    if entries != [] {
      RegisterAllKeyed(dancers, entries[..|entries| - 1]);
    }
  }

  /** Registrations under distinct names into an empty table: the table holds
      exactly those names, one entry each, each under its own name. */
  lemma DistinctRegistrations(entries: seq<Dancer>)
    requires forall i, j :: 0 <= i < j < |entries| ==> entries[i].name != entries[j].name
    ensures RegisterAll(map[], entries).Keys == Names(entries)
    ensures forall i :: 0 <= i < |entries| ==> RegisterAll(map[], entries)[entries[i].name] == entries[i]
  {
    RegisterAllKeys(map[], entries);
    forall i | 0 <= i < |entries| ensures RegisterAll(map[], entries)[entries[i].name] == entries[i] {
      LastWriteWins(map[], entries, i);
    }
  }

  /** Dispatch after registering two functions under one name reaches only
      the second. */
  lemma SecondRegistrationWins(dancers: map<string, Dancer>, first: Dancer, second: Dancer,
                               event: Value, context: LambdaContext)
    requires first.name == second.name
    ensures Dispatched(RegisterAll(dancers, [first, second]), second.name, event, context).0
            == Some(Invocation(second.func, event, context))
  {
  }

  /** A handler that raises KeyError only for a `None` event: dispatch reports
      the no-match error for that event alone, and ends normally otherwise. */
  lemma HandlerKeyErrorDependsOnEvent(context: LambdaContext, other: Value)
    requires other != Null
    ensures var f := UserFunction("handler", (v: Value) => if v == Null then Raises(KeyError("key")) else Returns(v));
            var table := map[context.functionName := Dancer(f, context.functionName, Null, Null, Null)];
            && Dispatched(table, context.functionName, Null, context).1 == Raised(NoMatchingDancer(context.functionName))
            && Dispatched(table, context.functionName, other, context).1 == ReturnedNone
  {
  }
}
