/**
 * The algorithm registry (src/algorithms/algorithm_factory.py): a
 * class-level dictionary from names to algorithm classes, filled by a
 * registering decorator, read by `create` and `available`.
 */
module AlgorithmFactory {
  import opened Wrappers

  /** The algorithm classes of the repository. */
  datatype AlgorithmClass = Dega | DegaA | DegaB | DegaLimit | Umda

  /** A constructor default as `inspect` reports it; `u=None` has a default, the value `None`. */
  datatype DefaultValue = NoneValue | IntValue(i: int)

  /** One parameter of `__init__`; `default == None` is `inspect._empty`. */
  datatype Parameter = Parameter(name: string, default: Option<DefaultValue>)

  /** The parameter names, in order. */
  function Names(ps: seq<Parameter>): (r: seq<string>)
    ensures |r| == |ps| && forall i :: 0 <= i < |ps| ==> r[i] == ps[i].name
  {
    if ps == [] then [] else [ps[0].name] + Names(ps[1..])
  }

  /** `inspect.signature(cls.__init__).parameters`, in declaration order, `self` included. */
  function Signature(c: AlgorithmClass): (ps: seq<Parameter>)
    ensures |ps| >= 2 && ps[0].name == "self"
    ensures "n" in Names(ps) && Distinct(Names(ps))
  {
    match c
    case Dega => [Parameter("self", None), Parameter("lamb", None), Parameter("n", None)]
    case DegaA => [Parameter("self", None), Parameter("n", None)]
    case DegaB => [Parameter("self", None), Parameter("n", None), Parameter("u", Some(NoneValue))]
    case DegaLimit => [Parameter("self", None), Parameter("n", None), Parameter("lamb", None),
                       Parameter("u", Some(NoneValue))]
    case Umda => [Parameter("self", None), Parameter("n", None), Parameter("lamb", None), Parameter("mu", None)]
  }

  /** The call `alg_cls(**kwargs)` that `create` makes. */
  datatype Instance = Instance(cls: AlgorithmClass, kwargs: map<string, int>)

  class Registry {
    /** The registry's keys in insertion order, and the dictionary itself. */
    var names: seq<string>
    var classes: map<string, AlgorithmClass>

    ghost predicate Valid()
      reads this
    {
      Distinct(names) && forall k :: k in classes <==> k in names
    }

    constructor ()
      ensures Valid() && names == [] && classes == map[]
    {
      names := [];
      classes := map[];
    }

    /**
     * `register(name)(cls)`: a new name is added at the end and `cls` is
     * handed back; a name already present raises `KeyError` and the
     * registry stays as it was.
     */
    method Register(name: string, cls: AlgorithmClass) returns (r: Result<AlgorithmClass, Exception>)
      requires Valid()
      modifies this
      ensures Valid()
      ensures old(name in classes) ==> r == Err(KeyError) && names == old(names) && classes == old(classes)
      ensures old(name !in classes) ==>
                r == Ok(cls) && classes == old(classes)[name := cls] && names == old(names) + [name]
    {
      if name in classes {
        return Err(KeyError);
      }
      classes := classes[name := cls];
      names := names + [name];
      return Ok(cls);
    }

    /** `create(name, **kwargs)`: `ValueError` for an unknown name, else the registered class called with `kwargs`. */
    function Create(name: string, kwargs: map<string, int>): (r: Result<Instance, Exception>)
      reads this
      ensures r.Err? <==> name !in classes
      ensures r.Err? ==> r.error == ValueError
      ensures r.Ok? ==> r.value.cls == classes[name] && r.value.kwargs == kwargs
    {
      if name in classes then Ok(Instance(classes[name], kwargs)) else Err(ValueError)
    }

    /** `available()`: every registered name once, in registration order. */
    function Available(): (r: seq<string>)
      reads this
      requires Valid()
      ensures Distinct(r)
      ensures forall k :: k in r <==> k in classes
    {
      names
    }
  }
}
