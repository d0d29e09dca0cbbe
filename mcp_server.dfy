/**
 * The tool functions of `src/shortl/mcp_server.py`, each a thin call into the
 * module-level registry instance `shortener`.
 */
module McpServer {
  import opened PyValues
  import opened Registry

  /** One entry of `list_providers()`: `{"name": name, "type": kind}`. */
  datatype ProviderInfo = ProviderInfo(name: string, kind: string)

  /** `[{"name": n, "type": kind} for n in names]` */
  function Tagged(names: seq<string>, kind: string): (r: seq<ProviderInfo>)
    ensures |r| == |names|
    ensures forall i :: 0 <= i < |names| ==> r[i] == ProviderInfo(names[i], kind)
  {
    seq(|names|, i requires 0 <= i < |names| => ProviderInfo(names[i], kind))
  }

  /**
   * `list_providers()`: every built-in name in order tagged `builtin`, followed by
   * every custom name in order tagged `custom`.
   */
  function ListProviders(shortener: Shortener): (r: seq<ProviderInfo>)
    reads shortener
    ensures |r| == |shortener.ListBuiltins()| + |shortener.ListCustom()|
    ensures forall i :: 0 <= i < |shortener.ListBuiltins()| ==>
              r[i] == ProviderInfo(shortener.ListBuiltins()[i], "builtin")
    ensures forall i :: 0 <= i < |shortener.ListCustom()| ==>
              r[|shortener.ListBuiltins()| + i] == ProviderInfo(shortener.ListCustom()[i], "custom")
  {
    Tagged(shortener.ListBuiltins(), "builtin") + Tagged(shortener.ListCustom(), "custom")
  }

  /** `create_custom_shortener(code)`: registers source text and returns `register_custom`'s answer. */
  method CreateCustomShortener(shortener: Shortener, code: string, exec: string -> ExecOutcome)
    returns (r: Result<string>)
    modifies shortener
    ensures shortener.builtinProviders == old(shortener.builtinProviders)
    ensures ProviderFor(Str(code), exec).Err? ==>
              r == Err(ProviderFor(Str(code), exec).error) &&
              shortener.customProviders == old(shortener.customProviders)
    ensures ProviderFor(Str(code), exec).Ok? ==>
              var f := ProviderFor(Str(code), exec).value;
              r == Ok(f.name.value) && shortener.customProviders == PyDict.Assign(old(shortener.customProviders), f.name.value, f)
  {
    r := shortener.RegisterCustom(Str(code), exec);
  }

  /** `shorten(url, provider)`: the registry's answer for that name, errors included. */
  function Shorten(shortener: Shortener, url: string, provider: string): (r: Result<string>)
    reads shortener
    ensures r == shortener.ShortenByName(url, provider)
  {
    shortener.Shorten(url, Str(provider))
  }
}
