# shortl in Dafny

A model of **shortl**, a URL-shortening facade. It has two parts.

- The **provider registry and dispatcher** of `shortl.py` (module `Registry`).
  Class `Shortener` keeps two insertion-ordered dictionaries: built-in providers
  (`isgd`, `tinyurl`) and custom providers. They are class attributes in Python,
  so every instance shares them. Here one `Registry.Shortener` object holds that
  shared state, and each Python instance is an alias of it. The Dafny constructor
  is the class body, where both dictionaries start empty. The Python `__init__`
  is the method `Init`, which registers the two built-ins again on the shared state.
  `shorten` takes a provider name or a callable and checks that the provider
  returns a `str`. `register_custom` stores a callable, or the first callable
  that evaluating some source text produces, under the callable's `__name__`.
- The **URL clean-up helpers**. `src/shortl.py` has them as functions (module
  `UrlScript`). `src/shortl/shortl.py` has them as in-place methods of class
  `URL`, plus the `Shortl.shorten` pipeline (module `UrlClasses`).
  `src/shortl/mcp_server.py` adds thin tool wrappers over the registry
  (module `McpServer`).

Supporting modules:
- `PyDict` models Python's ordered `dict`: a key order plus a map. `d[k] = v`
  keeps an existing key in place and appends a new key. `{**a, **b}` is a fold of
  such assignments.
- `PyStr` models `str.startswith` and the one-character `str.strip(c)`. `strip(c)`
  removes the maximal run of `c` from both ends.
- `PyValues` models Python values. A value is a callable (its `__name__` plus an
  opaque call), a `str`, or any other object. A call returns a `str`, returns a
  non-string, or raises. The registry's exceptions are a `Result` error.

Notes on the code as written, which the model follows:
- Custom names that collide with built-in names are accepted. The custom entry
  then shadows the built-in one in lookups. The code has no check against it.
- There is no `delete_custom`.
- `register_custom` reads the chosen callable's `__name__`. A callable without
  one (a `functools.partial`, an object with `__call__`) makes it raise
  `AttributeError`, and nothing is stored.

One place where the model departs from the code as written:
- `src/shortl/mcp_server.py` imports `Shortener` from `shortl.shortl`. In
  `src/shortl/shortl.py` that class is the plain TinyURL client, with none of
  the registry methods, so each tool would raise `AttributeError`. The tools
  are modelled against the registry of `shortl.py` instead, which is what
  their tests exercise (see "## Left out").

## Model

| member | source | states |
|---|---|---|
| PyDict.Assign | shortl.py:18 | `d[k] = v` keeps a present key in its place or appends a new one; `k` then maps to `v` and every other key keeps its entry |
| PyDict.Keys | shortl.py:20-24 | `list(d.keys())` holds exactly the keys of the dictionary |
| PyDict.Merge | shortl.py:34-37 | `{**a, **b}` has a key exactly when `a` or `b` has it |
| PyDict.MergeGet | shortl.py:34-37 | a lookup in `{**builtins, **customs}` yields the custom entry when one exists and the built-in one otherwise |
| Registry.Shortener.constructor | shortl.py:9-10 | both provider dictionaries start empty |
| Registry.Shortener.Init | shortl.py:12-14 | `__init__` assigns `isgd` then `tinyurl` into the built-ins and leaves the customs alone; from empty built-ins, `list_builtins()` is exactly `["isgd", "tinyurl"]` |
| Registry.Shortener.RegisterBuiltin | shortl.py:17-18 | only key `name` of the built-in dictionary changes, to `func`; the custom dictionary is unchanged |
| Registry.Shortener.ListBuiltins | shortl.py:20-21 | the names are exactly the built-in keys, without repeats |
| Registry.Shortener.ListCustom | shortl.py:23-24 | the names are exactly the custom keys, without repeats |
| Registry.Shortener.Resolve | shortl.py:34-38 | a name resolves exactly when it is listed by `list_builtins() + list_custom()` |
| Registry.Shortener.Shorten | shortl.py:26-31 | a `str` provider goes to lookup by name, a callable is called directly, any other provider is a `TypeError` |
| Registry.Shortener.ShortenByName | shortl.py:33-47 | not-found error (listing `list_builtins() + list_custom()`) exactly when the name is in neither dictionary; custom entries win over built-ins; a non-callable entry is a `TypeError` and is never called; otherwise the entry's result is checked to be a `str` |
| Registry.Shortener.ShortenByCallable | shortl.py:49-55 | a non-callable is a `TypeError`; a callable's result is checked to be a `str` |
| Registry.CheckStr | shortl.py:44-47 | success exactly when the provider returned a `str`, which is returned unchanged; a non-`str` result is a `TypeError`; a raised exception propagates unchanged |
| Registry.FirstCallable | shortl.py:84-88 | none exactly when no value is callable; otherwise a value of the namespace that is callable and has no callable before it |
| Registry.FindCallable | shortl.py:83-87 | the search loop returns the first callable of `local_ns.values()` in insertion order |
| Registry.Values | shortl.py:84 | `local_ns.values()` lists the namespace's values in key insertion order |
| Registry.ProviderFor | shortl.py:77-94 | the provider to register is always callable and named: a named callable argument as it is; for source text, an exception from `exec` propagates and the `ValueError` arises exactly when no value is callable; a callable without `__name__` is an `AttributeError`; other arguments are a `TypeError` |
| Registry.Shortener.RegisterCustom | shortl.py:70-96 | on success stores the provider under its `__name__`, overwriting, and returns that name; on error (including a callable without `__name__`) nothing changes; built-ins never change; afterwards shortening by that name calls that provider |
| Registry.CustomShortener | shortl.py:114-115 | same effect and answer as `register_custom` |
| PyStr.Strip | src/shortl.py:33-35 | the result neither begins nor ends with the stripped character and is never longer |
| PyStr.StripRemovesOnly | src/shortl.py:33-35 | the result is a slice `s[i..j]` and every removed character is the stripped one |
| PyStr.StripKeepsPrefix | src/shortl/shortl.py:39-41 | stripping a character that a non-empty prefix does not contain keeps that prefix |
| UrlScript.AddHttpsToUrl | src/shortl.py:26-29 | unchanged when the URL starts with `http://` or `https://`, else `https://` prepended; the result always has one of the two schemes |
| UrlScript.AddHttpsIdempotent | src/shortl.py:26-29 | applying `add_https_to_url` twice equals applying it once |
| UrlScript.RemoveUnwantedCharacters | src/shortl.py:32-36 | the result is a slice of the input, no longer, without a leading or trailing space; input with no `"`, `'` or space at either end is returned unchanged |
| UrlScript.QuoteBehindQuoteSurvives | src/shortl.py:33-35 | because the strips run in a fixed order, `'"x"'` becomes `"x"` for every `x`, so the result can still begin and end with a double quote |
| UrlClasses.URL.constructor | src/shortl/shortl.py:25-27 | `long_url` is the given URL |
| UrlClasses.URL.AddHttps | src/shortl/shortl.py:30-34 | `long_url` gets `https://` prepended exactly when neither prefix is present and is unchanged otherwise |
| UrlClasses.URL.RemoveUnwantedCharacters | src/shortl/shortl.py:37-41 | the new `long_url` is the script's `remove_unwanted_characters` of the old one: a slice of it, with no leading or trailing space |
| UrlClasses.NormalisedHasScheme | src/shortl/shortl.py:53-60 | scheme-adding and then stripping yields a URL that starts with `http://` or `https://` |
| UrlClasses.Shortl.constructor | src/shortl/shortl.py:45-47 | the object holds the shortening service it was given |
| UrlClasses.Shortl.Shorten | src/shortl/shortl.py:51-72 | the service gets `strip(add_https(long_url))`, which has a scheme, and its answer is returned unchanged whatever `copy` is |
| McpServer.Tagged | src/shortl/mcp_server.py:36-38 | each name becomes one entry with that name and the given type, in order |
| McpServer.ListProviders | src/shortl/mcp_server.py:29-39 | length is the number of built-ins plus customs; first the built-in names in order tagged `builtin`, then the custom names in order tagged `custom` |
| McpServer.CreateCustomShortener | src/shortl/mcp_server.py:9-15 | same effect and answer as `register_custom(code)` |
| McpServer.Shorten | src/shortl/mcp_server.py:42-49 | the registry's answer for the name, errors included |

## Left out

- HTTP providers are opaque functions passed in, not modelled. This covers `_isgd`, `_tinyurl` (shortl.py:57-67), `Shortener.shorten_url` (src/shortl/shortl.py:8-21), `shorten_url` (src/shortl.py:15-19) and `src/providers/`.
- `exec` of source text is a parameter, `exec: string -> ExecOutcome`. It gives the resulting namespace in insertion order, or the exception it raised. Only the first-callable selection is modelled.
- Registry.Shortener.ShortenByName: the not-found error carries the name and the list of known names. The formatting of that `ValueError`'s message is not modelled.
- `_ProviderNamespace` and `BuiltinProviders` (shortl.py:98-121) use dynamic attribute resolution and are not modelled.
- UrlClasses.Shortl.Shorten: the clipboard copy made when `copy` is true is not modelled.
- The clipboard is not modelled elsewhere either. That covers `copy_to_clipboard`, `clipboard.copy`, and the `Shorten` function of src/shortl.py:43-54 with its exception printing.
- McpServer.ListProviders, McpServer.CreateCustomShortener, McpServer.Shorten: they call the registry of `shortl.py`. As written, the module imports the `Shortener` of `src/shortl/shortl.py`, which has none of those methods, so every tool would raise `AttributeError`; that failure is not modelled.
- `delete_custom` and the tool `delete_custom_provider` (src/shortl/mcp_server.py:18-25) are not modelled. The tests call `delete_custom`, but none of the modelled files defines it.
- The other server files, `mcp_server_shortl.py` and `src/shortl/server.py`, and `mcp.run()` are tool plumbing. They are not modelled.
- `src/main.py`, `setup.py`, `main_custom.py` and `usage_custom.py` are packaging, module loading and demo scripts. They are not modelled.
- Concurrency is not modelled. The shared dictionaries are unlocked in the source, and the model is sequential.
