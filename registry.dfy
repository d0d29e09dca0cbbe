/**
 * The provider registry and dispatcher of `shortl.py`. Python keeps the two
 * provider dictionaries as class attributes of `Shortener`, so every instance
 * shares them; here one `Shortener` object holds that shared state and every
 * Python instance stands for an alias of it.
 */
module Registry {
  import opened Wrappers
  import opened PyDict
  import opened PyValues

  /** `isinstance(result, str)`: the check both dispatch paths apply to a provider's result. */
  function CheckStr(out: Outcome, notStr: string): (r: Result<string>)
    ensures r.Ok? <==> out.ReturnedStr?
    ensures out.ReturnedStr? ==> r.value == out.s
    ensures out.ReturnedNonStr? ==> r == Err(TypeError(notStr))
    ensures out.Raised? ==> r == Err(Propagated(out.exc))
  {
    match out
    case ReturnedStr(s) => Ok(s)
    case ReturnedNonStr => Err(TypeError(notStr))
    case Raised(e) => Err(Propagated(e))
  }

  /** The first callable among the values of `ns`, in insertion order. */
  function FirstCallable(ns: seq<Value>): (f: Option<Value>)
    ensures f.None? <==> forall i :: 0 <= i < |ns| ==> !ns[i].Callable?
    ensures f.Some? ==> exists i :: 0 <= i < |ns| && ns[i] == f.value && f.value.Callable? &&
                                    forall j :: 0 <= j < i ==> !ns[j].Callable?
  {
    if ns == [] then None
    else if ns[0].Callable? then Some(ns[0])
    else
      var f := FirstCallable(ns[1..]);
      assert f.Some? ==> exists i :: 1 <= i < |ns| && ns[i] == f.value && f.value.Callable? &&
                                     forall j :: 0 <= j < i ==> !ns[j].Callable? by {
        if f.Some? {
          var i :| 0 <= i < |ns[1..]| && ns[1..][i] == f.value && f.value.Callable? &&
                   forall j :: 0 <= j < i ==> !ns[1..][j].Callable?;
          assert ns[i + 1] == f.value;
          assert forall j :: 1 <= j < i + 1 ==> !ns[j].Callable? by {
            forall j | 1 <= j < i + 1 ensures !ns[j].Callable? { assert ns[j] == ns[1..][j - 1]; }
          }
        }
      }
      f
  }

  /** The values of a namespace in insertion order (`local_ns.values()`). */
  function Values(ns: Dict<Value>): (vs: seq<Value>)
    ensures |vs| == |Keys(ns)|
    ensures forall i :: 0 <= i < |vs| ==> Get(ns, Keys(ns)[i]) == Some(vs[i])
  {
    seq(|ns.order|, i requires 0 <= i < |ns.order| => ns.entries[ns.order[i]])
  }

  /**
   * The provider `register_custom` stores for its argument: a callable as it is;
   * for source text, the first callable `exec` leaves in the namespace; anything
   * else is rejected. Reading `__name__` of the chosen callable fails when it has
   * none. A provider it returns is always callable and named.
   */
  function ProviderFor(funcOrCode: Value, exec: string -> ExecOutcome): (r: Result<Value>)
    ensures r.Ok? ==> r.value.Callable? && r.value.name.Some?
    ensures funcOrCode.Callable? && funcOrCode.name.Some? ==> r == Ok(funcOrCode)
    ensures funcOrCode.Callable? && funcOrCode.name.None? ==> r == Err(NoNameError)
    ensures funcOrCode.Other? ==> r.Err? && r.error.TypeError?
    ensures funcOrCode.Str? && exec(funcOrCode.text).ExecRaised? ==>
              r == Err(Propagated(exec(funcOrCode.text).exc))
    ensures funcOrCode.Str? && exec(funcOrCode.text).Executed? ==>
              ((r.Err? && r.error.ValueError?) <==>
               forall i :: 0 <= i < |Values(exec(funcOrCode.text).ns)| ==>
                             !Values(exec(funcOrCode.text).ns)[i].Callable?)
  {
    match funcOrCode
    case Callable(name, _) =>
      if name.None? then Err(NoNameError) else Ok(funcOrCode)
    case Str(code) =>
      (match exec(code)
       case ExecRaised(e) => Err(Propagated(e))
       case Executed(ns) =>
         var found := FirstCallable(Values(ns));
         if found.None? then Err(ValueError("No callable found in function_code."))
         else if found.value.name.None? then Err(NoNameError)
         else Ok(found.value))
    case Other => Err(TypeError("func_or_code must be a callable or a string of function code."))
  }

  /**
   * `for v in local_ns.values(): if callable(v): func = v; break`
   * in `register_custom` of `shortl.py`, searching the namespace in insertion order.
   */
  method FindCallable(ns: Dict<Value>) returns (func: Option<Value>)
    ensures func == FirstCallable(Values(ns))
  {
    var vs := Values(ns);
    func := None;
    var i := 0;
    while i < |vs|
      invariant 0 <= i <= |vs|
      invariant FirstCallable(vs) == FirstCallable(vs[i..])
    {
      if vs[i].Callable? {
        func := Some(vs[i]);
        return;
      }
      assert vs[i..][1..] == vs[i + 1..];
      i := i + 1;
    }
  }

  class Shortener {
    var builtinProviders: Dict<Value>
    var customProviders: Dict<Value>

    /** The class attributes as `shortl.py` defines them: both dictionaries empty. */
    constructor ()
      ensures ListBuiltins() == [] && ListCustom() == []
    {
      builtinProviders := Empty();
      customProviders := Empty();
    }

    /** `__init__`: registers `isgd`, then `tinyurl`, on the shared built-in dictionary. */
    method Init(isgd: string -> Outcome, tinyurl: string -> Outcome)
      modifies this
      ensures builtinProviders ==
                Assign(Assign(old(builtinProviders), "isgd", Callable(Some("_isgd"), isgd)),
                       "tinyurl", Callable(Some("_tinyurl"), tinyurl))
      ensures customProviders == old(customProviders)
      ensures ListBuiltins() == InitOrder(old(ListBuiltins()))
      ensures old(ListBuiltins()) == [] ==> ListBuiltins() == ["isgd", "tinyurl"]
    {
      RegisterBuiltin("isgd", Callable(Some("_isgd"), isgd));
      RegisterBuiltin("tinyurl", Callable(Some("_tinyurl"), tinyurl));
    }

    /** `_builtin_providers[name] = func`: only key `name` of the built-ins changes. */
    method RegisterBuiltin(name: string, func: Value)
      modifies this
      ensures builtinProviders == Assign(old(builtinProviders), name, func)
      ensures customProviders == old(customProviders)
      ensures Get(builtinProviders, name) == Some(func)
      ensures forall k :: k != name ==> Get(builtinProviders, k) == Get(old(builtinProviders), k)
    {
      builtinProviders := Assign(builtinProviders, name, func);
    }

    /** `list_builtins()`: exactly the built-in names, in registration order. */
    function ListBuiltins(): (names: seq<string>)
      reads this
      ensures forall n :: n in names <==> Get(builtinProviders, n).Some?
      ensures forall i, j :: 0 <= i < j < |names| ==> names[i] != names[j]
    {
      Keys(builtinProviders)
    }

    /** `list_custom()`: exactly the custom names, in registration order. */
    function ListCustom(): (names: seq<string>)
      reads this
      ensures forall n :: n in names <==> Get(customProviders, n).Some?
      ensures forall i, j :: 0 <= i < j < |names| ==> names[i] != names[j]
    {
      Keys(customProviders)
    }

    /**
     * The reference reading of a name: a custom entry when there is one, the
     * built-in entry otherwise.
     */
    function Resolve(name: string): (v: Option<Value>)
      reads this
      ensures v.Some? <==> name in ListBuiltins() + ListCustom()
    {
      if Get(customProviders, name).Some? then Get(customProviders, name)
      else Get(builtinProviders, name)
    }

    /** `shorten(url, provider)`: dispatch on the kind of `provider`. */
    function Shorten(url: string, provider: Value): (r: Result<string>)
      reads this
      ensures provider.Str? ==> r == ShortenByName(url, provider.text)
      ensures provider.Callable? ==> r == CheckStr(provider.call(url), "Custom shortener function must return a string.")
      ensures provider.Other? ==> r == Err(TypeError("Provider must be a string or a callable."))
    {
      match provider
      case Str(name) => ShortenByName(url, name)
      case Callable(_, _) => ShortenByCallable(url, provider)
      case Other => Err(TypeError("Provider must be a string or a callable."))
    }

    /**
     * `_shorten_by_name`: looks `name` up in `{**builtins, **customs}`. The
     * result agrees with `Resolve`, so a custom entry shadows a built-in one; a
     * missing name lists every known name; a non-callable entry is never called.
     */
    function ShortenByName(url: string, name: string): (r: Result<string>)
      reads this
      ensures Resolve(name).None? <==> r == Err(NotFound(name, ListBuiltins() + ListCustom()))
      ensures Resolve(name).Some? && !Resolve(name).value.Callable? ==>
                r == Err(TypeError("Provider '" + name + "' is not callable."))
      ensures Resolve(name).Some? && Resolve(name).value.Callable? ==>
                r == CheckStr(Resolve(name).value.call(url), "Provider '" + name + "' must return a string.")
    {
      var providerMap := Merge(builtinProviders, customProviders);
      MergeGet(builtinProviders, customProviders, name);
      if Get(providerMap, name).None? then
        Err(NotFound(name, ListBuiltins() + ListCustom()))
      else
        var funcObj := Get(providerMap, name).value;
        if !funcObj.Callable? then Err(TypeError("Provider '" + name + "' is not callable."))
        else CheckStr(funcObj.call(url), "Provider '" + name + "' must return a string.")
    }

    /** `_shorten_by_callable`: call `func` directly, bypassing both dictionaries. */
    function ShortenByCallable(url: string, func: Value): (r: Result<string>)
      ensures !func.Callable? ==> r == Err(TypeError("Custom shortener function must be callable."))
      ensures func.Callable? ==> r == CheckStr(func.call(url), "Custom shortener function must return a string.")
    {
      if !func.Callable? then Err(TypeError("Custom shortener function must be callable."))
      else CheckStr(func.call(url), "Custom shortener function must return a string.")
    }

    /**
     * `register_custom(func_or_code)`: stores the provider under its `__name__`,
     * overwriting an earlier custom entry, and returns the name; on any error,
     * a callable without `__name__` included, nothing changes; the built-ins
     * never change. Afterwards, shortening by that name calls that provider.
     */
    method RegisterCustom(funcOrCode: Value, exec: string -> ExecOutcome) returns (r: Result<string>)
      modifies this
      ensures builtinProviders == old(builtinProviders)
      ensures ProviderFor(funcOrCode, exec).Err? ==>
                r == Err(ProviderFor(funcOrCode, exec).error) && customProviders == old(customProviders)
      ensures ProviderFor(funcOrCode, exec).Ok? ==>
                var f := ProviderFor(funcOrCode, exec).value;
                r == Ok(f.name.value) && customProviders == Assign(old(customProviders), f.name.value, f)
      ensures r.Ok? ==> forall url :: ShortenByName(url, r.value) == CheckStr(ProviderFor(funcOrCode, exec).value.call(url),
                                                                             "Provider '" + r.value + "' must return a string.")
    {
      var func: Value;
      var providerName: string;
      if funcOrCode.Callable? {
        func := funcOrCode;
        if func.name.None? {
          return Err(NoNameError);
        }
        providerName := func.name.value;
      } else if funcOrCode.Str? {
        var localNs := exec(funcOrCode.text);
        if localNs.ExecRaised? {
          return Err(Propagated(localNs.exc));
        }
        var found := FindCallable(localNs.ns);
        if found.None? {
          return Err(ValueError("No callable found in function_code."));
        }
        func := found.value;
        if func.name.None? {
          return Err(NoNameError);
        }
        providerName := func.name.value;
      } else {
        return Err(TypeError("func_or_code must be a callable or a string of function code."));
      }
      customProviders := Assign(customProviders, providerName, func);
      r := Ok(providerName);
    }
  }

  /** The built-in names after `__init__`: `isgd` then `tinyurl`, each appended only if new. */
  function InitOrder(before: seq<string>): seq<string> {
    var withIsgd := if "isgd" in before then before else before + ["isgd"];
    if "tinyurl" in withIsgd then withIsgd else withIsgd + ["tinyurl"]
  }

  /** `custom_shortener(func)`: `register_custom` under another name. */
  method CustomShortener(s: Shortener, func: Value, exec: string -> ExecOutcome) returns (r: Result<string>)
    modifies s
    ensures s.builtinProviders == old(s.builtinProviders)
    ensures ProviderFor(func, exec).Err? ==>
              r == Err(ProviderFor(func, exec).error) && s.customProviders == old(s.customProviders)
    ensures ProviderFor(func, exec).Ok? ==>
              var f := ProviderFor(func, exec).value;
              r == Ok(f.name.value) && s.customProviders == Assign(old(s.customProviders), f.name.value, f)
  {
    r := s.RegisterCustom(func, exec);
  }
}
