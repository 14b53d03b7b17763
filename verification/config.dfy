/**
 * The `configurable` decorator (racoons/config.py): a wrapped function's
 * keyword arguments are completed from a nested configuration dictionary,
 * `config[<module file name>][<function qualname>]`, with the call's own
 * keyword arguments taking precedence. Python dictionaries are mutable and
 * shared, so a dictionary is an object here and the merge updates the
 * caller's configuration section in place.
 */
module Config {
  import opened Wrappers
  import opened Paths

  /** A Python value as far as the decorator looks at it. */
  datatype Value = NoneValue | Scalar(text: string) | Dict(dict: PyDict)

  class PyDict {
    var items: map<string, Value>

    constructor (items: map<string, Value>)
      ensures this.items == items
    {
      this.items := items;
    }
  }

  /** The arguments the wrapped function is finally called with. */
  datatype Call = Call(args: seq<Value>, kwargs: map<string, Value>)

  /** `kwargs.get("config")`. */
  function ConfigArg(kwargs: map<string, Value>): Value {
    if "config" in kwargs then kwargs["config"] else NoneValue
  }

  /** The dictionaries reading `v[key]` inspects. */
  function DictOf(v: Value): set<object> {
    if v.Dict? then {v.dict} else {}
  }

  /** `v[key]`: a KeyError for a missing key, a TypeError when `v` is not a dictionary. */
  function Lookup(v: Value, key: string): (r: Result<Value, Exception>)
    reads DictOf(v)
    ensures r.Ok? <==> v.Dict? && key in v.dict.items
    ensures r.Ok? ==> r.value == v.dict.items[key]
    ensures v.Dict? && key !in v.dict.items ==> r == Err(KeyError(key))
    ensures !v.Dict? ==> r == Err(TypeError)
  {
    if !v.Dict? then Err(TypeError)
    else if key in v.dict.items then Ok(v.dict.items[key])
    else Err(KeyError(key))
  }

  /** The dictionaries reading `config[file][qualname]` inspects. */
  function SectionReads(config: Value, file: string): set<object>
    reads DictOf(config)
  {
    DictOf(config) + match Lookup(config, file) { case Ok(v) => DictOf(v) case Err(_) => {} }
  }

  /** `config[file][qualname]`: the first failing lookup decides the error. */
  function Section(config: Value, file: string, qualname: string): (r: Result<Value, Exception>)
    reads SectionReads(config, file)
    ensures r.Ok? <==> Lookup(config, file).Ok? && Lookup(Lookup(config, file).value, qualname).Ok?
    ensures Lookup(config, file).Err? ==> r == Lookup(config, file)
    ensures r.Ok? ==>
      (config.Dict? && file in config.dict.items && config.dict.items[file].Dict?
       && qualname in config.dict.items[file].dict.items
       && r.value == config.dict.items[file].dict.items[qualname])
  {
    match Lookup(config, file)
    case Err(e) => Err(e)
    case Ok(inner) => Lookup(inner, qualname)
  }

  /** The dictionary the merge updates, if the section lookup reaches one. */
  function SectionDict(config: Value, file: string, qualname: string): set<object>
    reads SectionReads(config, file)
  {
    match Section(config, file, qualname)
    case Ok(v) => DictOf(v)
    case Err(_) => {}
  }

  /**
   * `conf.update(kwargs)` on a section holding `base`: the keys of both, the
   * call's value on a clash, the section's value elsewhere.
   */
  function Merge(base: map<string, Value>, overrides: map<string, Value>): (m: map<string, Value>)
    ensures m.Keys == base.Keys + overrides.Keys
    ensures forall k | k in overrides :: m[k] == overrides[k]
    ensures forall k | k in base && k !in overrides :: m[k] == base[k]
  {
    base + overrides
  }

  /** The configuration the wrapper indexes: a dictionary as given, otherwise the YAML file's contents. */
  function ResolvedConfig(kwargs: map<string, Value>, yamlContents: Value): Value {
    if ConfigArg(kwargs).Dict? then ConfigArg(kwargs) else yamlContents
  }

  /**
   * `wrapper(*args, **kwargs)` of a function defined in `funcFile` under
   * `qualname`. Without a config the function is called as is. Otherwise the
   * configuration (a dictionary, or a file name whose YAML contents are
   * `yamlContents`) is indexed by the file name and the qualname, the section
   * is updated in place with the call's keyword arguments, config included,
   * and the function is called with the positional arguments and the section.
   */
  method Wrapper(qualname: string, funcFile: Path, args: seq<Value>, kwargs: map<string, Value>, yamlContents: Value)
    returns (r: Result<Call, Exception>)
    modifies if ConfigArg(kwargs).NoneValue? then {} else SectionDict(ResolvedConfig(kwargs, yamlContents), Name(funcFile), qualname)
    ensures ConfigArg(kwargs).NoneValue? ==> r == Ok(Call(args, kwargs))
    ensures !ConfigArg(kwargs).NoneValue? ==>
      var section := old(Section(ResolvedConfig(kwargs, yamlContents), Name(funcFile), qualname));
      match section
      case Err(e) => r == Err(e)
      case Ok(v) =>
        if v.Dict? then
          && v.dict.items == Merge(old(v.dict.items), kwargs)
          && r == Ok(Call(args, v.dict.items))
          && "config" in r.value.kwargs
        else r == Err(AttributeError("update"))
  {
    var config := ConfigArg(kwargs);
    if config.NoneValue? {
      return Ok(Call(args, kwargs));
    } else if config.Dict? {
      // a dictionary is used as it is
    } else {
      config := yamlContents;
    }
    var fname := Name(funcFile);
    var conf := Section(config, fname, qualname);
    if conf.Err? {
      return Err(conf.error);
    }
    if !conf.value.Dict? {
      return Err(AttributeError("update"));
    }
    var d := conf.value.dict;
    d.items := d.items + kwargs;
    return Ok(Call(args, d.items));
  }
}
