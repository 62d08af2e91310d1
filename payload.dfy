/**
 * Loosely shaped payloads as the upstream timetable service returns them, the mutable
 * dictionaries the factories work on, and the `dataclass` construction step
 * (everyclass/server/rpc/api_server.py).
 */
module Payload {
  import opened Wrappers

  /** A JSON-like value, a dataclass instance, or an identifier produced by `encrypt`. */
  datatype Value =
    | Null
    | Str(s: string)
    | Int(n: int)
    | List(items: seq<Value>)
    | Dict(entries: map<string, Value>)
    | Object(cls: string, attrs: map<string, Value>)
    | Encoded(resourceType: string, raw: Value)

  /** The exceptions a factory or an upstream call can raise. */
  datatype MapError =
    | KeyMissing(key: string)               // KeyError from `pop`, `del` or `dct[key]`
    | WrongShape(key: string)               // TypeError/AttributeError from using a value of the wrong kind
    | FieldMissing(names: set<string>)      // dataclass __init__: missing required arguments
    | UnexpectedField(names: set<string>)   // dataclass __init__: unexpected keyword arguments
    | NonSuccessStatus                      // RpcException: upstream status is not "success"

  /** The declared shape of a dataclass: its name, its fields and the fields that have defaults. */
  datatype Dataclass = Dataclass(name: string, fields: set<string>, defaults: map<string, Value>)

  /** The dictionary left by `ensure_slots`: exactly the declared keys are kept, with their values. */
  function Slots(m: map<string, Value>, declared: set<string>): (r: map<string, Value>)
    ensures r.Keys == m.Keys * declared
    ensures forall k :: k in r ==> r[k] == m[k]
  {
    map k | k in m && k in declared :: m[k]
  }

  /**
   * `cls(**kwargs)` for a dataclass: an unexpected keyword is reported before a missing
   * argument; a field that is absent takes its default.
   */
  function Construct(c: Dataclass, kwargs: map<string, Value>): (r: Result<Value, MapError>)
    ensures r.Success? <==> kwargs.Keys <= c.fields && c.fields <= kwargs.Keys + c.defaults.Keys
    ensures !(kwargs.Keys <= c.fields) ==> r == Failure(UnexpectedField(kwargs.Keys - c.fields))
    ensures r.Success? ==> r.value.Object? && r.value.cls == c.name && r.value.attrs.Keys == c.fields
    ensures r.Success? ==> forall f :: f in kwargs ==> r.value.attrs[f] == kwargs[f]
  {
    var unexpected := kwargs.Keys - c.fields;
    var missing := c.fields - kwargs.Keys - c.defaults.Keys;
    assert unexpected == {} <==> kwargs.Keys <= c.fields by {
      if unexpected == {} {
        forall k | k in kwargs ensures k in c.fields { assert k !in unexpected; }
      }
    }
    assert missing == {} <==> c.fields <= kwargs.Keys + c.defaults.Keys by {
      if missing == {} {
        forall f | f in c.fields ensures f in kwargs.Keys + c.defaults.Keys { assert f !in missing; }
      }
    }
    if unexpected != {} then
      Failure(UnexpectedField(unexpected))
    else if missing != {} then
      Failure(FieldMissing(missing))
    else
      Success(Object(c.name, Slots(c.defaults, c.fields) + kwargs))
  }

  /**
   * The dict a factory works on is tracked as `rest + assigns`: what is left of the payload after
   * the keys it popped, overridden by the keys it assigned. Popping a key it has not assigned
   * removes it from `rest`.
   */
  lemma PopBeneath(rest: map<string, Value>, assigns: map<string, Value>, key: string)
    requires key !in assigns
    ensures (rest + assigns) - {key} == (rest - {key}) + assigns
  {
  }

  /** Assigning a key adds it to the assigned keys. */
  lemma AssignOver(rest: map<string, Value>, assigns: map<string, Value>, key: string, v: Value)
    ensures (rest + assigns)[key := v] == rest + assigns[key := v]
  {
  }

  /** `dct.pop(key)` on a dict tracked as `rest + assigns`, for a key the factory has not assigned. */
  method PopTracked(d: Dict, ghost rest: map<string, Value>, ghost assigns: map<string, Value>, key: string)
    returns (r: Result<Value, MapError>)
    requires d.entries == rest + assigns && key !in assigns
    modifies d
    ensures r == if key in rest then Success(rest[key]) else Failure(KeyMissing(key))
    ensures d.entries == (rest - {key}) + assigns
  {
    r := d.Pop(key);
    PopBeneath(rest, assigns, key);
    if r.Failure? {
      assert rest - {key} == rest;
    }
  }

  /** `dct.pop(key, default)` on a dict tracked as `rest + assigns`. */
  method PopOrTracked(d: Dict, ghost rest: map<string, Value>, ghost assigns: map<string, Value>, key: string, default: Value)
    returns (v: Value)
    requires d.entries == rest + assigns && key !in assigns
    modifies d
    ensures v == if key in rest then rest[key] else default
    ensures d.entries == (rest - {key}) + assigns
  {
    v := d.PopOr(key, default);
    PopBeneath(rest, assigns, key);
  }

  /** `del dct[key]` on a dict tracked as `rest + assigns`. */
  method DeleteTracked(d: Dict, ghost rest: map<string, Value>, ghost assigns: map<string, Value>, key: string)
    returns (r: Check<MapError>)
    requires d.entries == rest + assigns && key !in assigns
    modifies d
    ensures r == if key in rest then Pass else Fail(KeyMissing(key))
    ensures d.entries == (rest - {key}) + assigns
  {
    r := d.Delete(key);
    PopBeneath(rest, assigns, key);
    if r.Fail? {
      assert rest - {key} == rest;
    }
  }

  /** `dct[key]` on a dict tracked as `rest + assigns`, for a key the factory has not assigned. */
  method GetTracked(d: Dict, ghost rest: map<string, Value>, ghost assigns: map<string, Value>, key: string)
    returns (r: Result<Value, MapError>)
    requires d.entries == rest + assigns && key !in assigns
    ensures r == if key in rest then Success(rest[key]) else Failure(KeyMissing(key))
  {
    r := d.Get(key);
  }

  /** `dct[key] = v` on a dict tracked as `rest + assigns`. */
  method SetTracked(d: Dict, ghost rest: map<string, Value>, ghost assigns: map<string, Value>, key: string, v: Value)
    requires d.entries == rest + assigns
    modifies d
    ensures d.entries == rest + assigns[key := v]
  {
    d.Set(key, v);
    AssignOver(rest, assigns, key, v);
  }

  /** `cls(**ensure_slots(cls, dct))` on a dict tracked as `rest + computed`. */
  method BuildSlotsRecord(c: Dataclass, d: Dict, ghost rest: map<string, Value>, ghost computed: map<string, Value>)
    returns (r: Result<Value, MapError>)
    requires d.entries == rest + computed
    requires computed.Keys <= c.fields && c.defaults == map[]
    modifies d
    ensures r == SlotsRecord(c, rest, computed)
  {
    EnsureSlots(c, d);
    SlotsOfOverride(c, rest, computed);
    r := Construct(c, d.entries);
  }

  /** `cls(**dct)` on a dict tracked as `rest + computed`. */
  method BuildDirectRecord(c: Dataclass, d: Dict, ghost rest: map<string, Value>, ghost computed: map<string, Value>)
    returns (r: Result<Value, MapError>)
    requires d.entries == rest + computed
    requires computed.Keys <= c.fields && c.defaults.Keys <= computed.Keys
    ensures r == DirectRecord(c, rest, computed)
  {
    ConstructOverride(c, rest, computed);
    r := Construct(c, d.entries);
  }

  /**
   * The instance `cls(**ensure_slots(cls, dct))` builds when the factory computed the fields
   * `computed` and `rest` is what is left of the payload after its pops: every declared field
   * the factory does not compute is copied from `rest`, and construction fails when one of them
   * is absent.
   */
  function SlotsRecord(c: Dataclass, rest: map<string, Value>, computed: map<string, Value>): (r: Result<Value, MapError>)
    requires computed.Keys <= c.fields && c.defaults == map[]
    ensures r.Success? <==> c.fields - computed.Keys <= rest.Keys
    ensures r.Failure? ==> r.error == FieldMissing(c.fields - computed.Keys - rest.Keys)
    ensures r.Success? ==> r.value.Object? && r.value.cls == c.name && r.value.attrs.Keys == c.fields
    ensures r.Success? ==> forall k :: k in computed ==> r.value.attrs[k] == computed[k]
    ensures r.Success? ==> forall k :: k in c.fields && k !in computed ==> r.value.attrs[k] == rest[k]
  {
    var copied := c.fields - computed.Keys;
    if !(copied <= rest.Keys) then Failure(FieldMissing(copied - rest.Keys))
    else Success(Object(c.name, Slots(rest, copied) + computed))
  }

  /** A field the factory computes holds the computed value. */
  lemma SlotsRecordComputed(c: Dataclass, rest: map<string, Value>, computed: map<string, Value>, k: string)
    requires computed.Keys <= c.fields && c.defaults == map[]
    requires SlotsRecord(c, rest, computed).Success? && k in computed
    ensures SlotsRecord(c, rest, computed).value.attrs[k] == computed[k]
  {
  }

  /**
   * The instance `cls(**dct)` builds without `ensure_slots`: a key left in `rest` that is not
   * declared is an unexpected argument; otherwise as SlotsRecord, with the declared defaults
   * among the computed fields.
   */
  function DirectRecord(c: Dataclass, rest: map<string, Value>, computed: map<string, Value>): (r: Result<Value, MapError>)
    requires computed.Keys <= c.fields && c.defaults.Keys <= computed.Keys
    ensures !(rest.Keys <= c.fields) ==> r == Failure(UnexpectedField(rest.Keys - c.fields))
    ensures r.Success? <==> rest.Keys <= c.fields && c.fields - computed.Keys <= rest.Keys
    ensures rest.Keys <= c.fields && r.Failure? ==> r.error == FieldMissing(c.fields - computed.Keys - rest.Keys)
    ensures r.Success? ==> r.value.Object? && r.value.cls == c.name && r.value.attrs.Keys == c.fields
    ensures r.Success? ==> forall k :: k in computed ==> r.value.attrs[k] == computed[k]
    ensures r.Success? ==> forall k :: k in c.fields && k !in computed ==> r.value.attrs[k] == rest[k]
  {
    if !(rest.Keys <= c.fields) then Failure(UnexpectedField(rest.Keys - c.fields))
    else
      var copied := c.fields - computed.Keys;
      if !(copied <= rest.Keys) then Failure(FieldMissing(copied - rest.Keys))
      else Success(Object(c.name, Slots(rest, copied) + computed))
  }

  /** `cls(**ensure_slots(cls, dct))` on the dict a factory left builds SlotsRecord. */
  lemma SlotsOfOverride(c: Dataclass, rest: map<string, Value>, computed: map<string, Value>)
    requires computed.Keys <= c.fields && c.defaults == map[]
    ensures Construct(c, Slots(rest + computed, c.fields)) == SlotsRecord(c, rest, computed)
  {
    var copied := c.fields - computed.Keys;
    var kwargs := Slots(rest + computed, c.fields);
    assert kwargs.Keys == (rest.Keys * copied) + computed.Keys;
    if copied <= rest.Keys {
      assert kwargs.Keys == c.fields;
      assert kwargs == Slots(rest, copied) + computed;
      assert Slots(c.defaults, c.fields) + kwargs == kwargs;
    } else {
      assert c.fields - kwargs.Keys - c.defaults.Keys == copied - rest.Keys;
    }
  }

  /** `cls(**dct)` on the dict a factory left builds DirectRecord. */
  lemma ConstructOverride(c: Dataclass, rest: map<string, Value>, computed: map<string, Value>)
    requires computed.Keys <= c.fields && c.defaults.Keys <= computed.Keys
    ensures Construct(c, rest + computed) == DirectRecord(c, rest, computed)
  {
    var copied := c.fields - computed.Keys;
    var kwargs := rest + computed;
    assert kwargs.Keys - c.fields == rest.Keys - c.fields;
    if rest.Keys <= c.fields {
      if copied <= rest.Keys {
        assert kwargs.Keys == c.fields;
        assert kwargs == Slots(rest, copied) + computed;
        assert Slots(c.defaults, c.fields) + kwargs == kwargs;
      } else {
        assert c.fields - kwargs.Keys - c.defaults.Keys == copied - rest.Keys;
      }
    }
  }

  /** `[f(x) for x in xs]`: the exception of the first element that fails ends the comprehension. */
  function MapEach(f: Value -> Result<Value, MapError>, xs: seq<Value>): (r: Result<seq<Value>, MapError>)
    ensures r.Success? ==> |r.value| == |xs|
  {
    if |xs| == 0 then Success([])
    else
      var init :- MapEach(f, xs[..|xs| - 1]);
      var last :- f(xs[|xs| - 1]);
      Success(init + [last])
  }

  /** The comprehension succeeds iff every element does, and then maps them position by position. */
  lemma {:induction false} MapEachElementwise(f: Value -> Result<Value, MapError>, xs: seq<Value>)
    ensures MapEach(f, xs).Success? <==> forall i :: 0 <= i < |xs| ==> f(xs[i]).Success?
    ensures MapEach(f, xs).Success? ==> forall i :: 0 <= i < |xs| ==> MapEach(f, xs).value[i] == f(xs[i]).value
  {
    if |xs| > 0 {
      var init := xs[..|xs| - 1];
      MapEachElementwise(f, init);
      assert forall i :: 0 <= i < |init| ==> init[i] == xs[i];
    }
  }

  /** The exception raised is that of the first failing element. */
  lemma {:induction false} MapEachFirstFailure(f: Value -> Result<Value, MapError>, xs: seq<Value>, k: nat)
    requires k < |xs| && f(xs[k]).Failure?
    requires forall i :: 0 <= i < k ==> f(xs[i]).Success?
    ensures MapEach(f, xs) == Failure(f(xs[k]).error)
  {
    var init := xs[..|xs| - 1];
    if k == |xs| - 1 {
      MapEachElementwise(f, init);
      assert forall i :: 0 <= i < |init| ==> init[i] == xs[i];
    } else {
      assert init[k] == xs[k];
      assert forall i :: 0 <= i < k ==> init[i] == xs[i];
      MapEachFirstFailure(f, init, k);
    }
  }

  /** A Python dict that the factories mutate in place. */
  class Dict {
    var entries: map<string, Value>

    constructor (entries: map<string, Value>)
      ensures this.entries == entries
    {
      this.entries := entries;
    }

    /** `dct.pop(key)`: removes and returns the value; KeyError when the key is absent. */
    method Pop(key: string) returns (r: Result<Value, MapError>)
      modifies this
      ensures key in old(entries) ==> r == Success(old(entries)[key]) && entries == old(entries) - {key}
      ensures key !in old(entries) ==> r == Failure(KeyMissing(key)) && entries == old(entries)
    {
      if key in entries {
        r := Success(entries[key]);
        entries := entries - {key};
      } else {
        r := Failure(KeyMissing(key));
      }
    }

    /** `dct.pop(key, default)`: like Pop, but an absent key yields the default. */
    method PopOr(key: string, default: Value) returns (v: Value)
      modifies this
      ensures v == (if key in old(entries) then old(entries)[key] else default)
      ensures entries == old(entries) - {key}
    {
      v := if key in entries then entries[key] else default;
      entries := entries - {key};
    }

    /** `dct[key]` as a read: KeyError when the key is absent. */
    method Get(key: string) returns (r: Result<Value, MapError>)
      ensures r == if key in entries then Success(entries[key]) else Failure(KeyMissing(key))
    {
      r := if key in entries then Success(entries[key]) else Failure(KeyMissing(key));
    }

    /** `del dct[key]`: KeyError when the key is absent. */
    method Delete(key: string) returns (r: Check<MapError>)
      modifies this
      ensures key in old(entries) ==> r == Pass && entries == old(entries) - {key}
      ensures key !in old(entries) ==> r == Fail(KeyMissing(key)) && entries == old(entries)
    {
      if key in entries {
        entries := entries - {key};
        r := Pass;
      } else {
        r := Fail(KeyMissing(key));
      }
    }

    /** `dct[key] = value` */
    method Set(key: string, value: Value)
      modifies this
      ensures entries == old(entries)[key := value]
    {
      entries := entries[key := value];
    }
  }

  /**
   * The first loop of `ensure_slots`: the keys of the dictionary that are not declared fields,
   * each listed once. Python visits the keys in insertion order; the order only affects the
   * order of the warnings, so it is left unspecified here.
   */
  method UndeclaredKeys(m: map<string, Value>, declared: set<string>) returns (undeclared: seq<string>)
    ensures forall k :: k in undeclared <==> k in m && k !in declared
    ensures forall i, j :: 0 <= i < j < |undeclared| ==> undeclared[i] != undeclared[j]
  {
    undeclared := [];
    var rest := m.Keys;
    while rest != {}
      invariant rest <= m.Keys
      invariant forall k :: k in undeclared <==> k in m && k !in declared && k !in rest
      invariant forall i, j :: 0 <= i < j < |undeclared| ==> undeclared[i] != undeclared[j]
      decreases rest
    {
      var key :| key in rest;
      if key !in declared {
        undeclared := undeclared + [key];
      }
      rest := rest - {key};
    }
  }

  /** `ensure_slots(cls, dct)`: deletes every key of `d` that is not a field of `c`. */
  method EnsureSlots(c: Dataclass, d: Dict)
    modifies d
    ensures d.entries == Slots(old(d.entries), c.fields)
  {
    var undeclared := UndeclaredKeys(d.entries, c.fields);
    ghost var original := d.entries;
    for i := 0 to |undeclared|
      invariant d.entries == original - set j | 0 <= j < i :: undeclared[j]
    {
      var deleted := d.Delete(undeclared[i]);
    }
    assert (set j | 0 <= j < |undeclared| :: undeclared[j]) == original.Keys - c.fields;
  }
}
