/** MCPServerSpec as it lies in memory: a struct with pointers, slices and maps that other structs
    may share, and the generated deep copy that separates it from its source. */
module HeapSpecs {
  import opened Options
  import opened McpTypes

  /** What a pointer points to, or the storage of a map. */
  class Cell<T> {
    var v: T

    constructor (v: T)
      ensures this.v == v
    {
      this.v := v;
    }
  }

  /** A slice: the first `len` elements of an array that may be longer and may be shared. */
  datatype Slice<T> = Slice(arr: array?<T>, len: nat) {
    predicate InBounds() {
      if arr == null then len == 0 else len <= arr.Length
    }

    /** Its array has no room left: an append cannot touch it. */
    predicate Full() {
      arr != null ==> len == arr.Length
    }

    function Items(): (r: seq<T>)
      requires InBounds()
      reads arr
      ensures |r| == len
    {
      if arr == null then [] else arr[..len]
    }
  }

  /** Go's append: in place when the array has room, otherwise into a longer new array. */
  method Append<T>(s: Slice<T>, x: T) returns (r: Slice<T>)
    requires s.InBounds()
    modifies if s.arr != null && s.len < s.arr.Length then {s.arr} else {}
    ensures r.InBounds() && r.Items() == old(s.Items()) + [x]
    ensures r.arr != null && (r.arr == s.arr || fresh(r.arr))
  {
    if s.arr != null && s.len < s.arr.Length {
      s.arr[s.len] := x;
      r := Slice(s.arr, s.len + 1);
    } else {
      var a := new T[2 * s.len + 1](_ => x);
      for i := 0 to s.len
        invariant forall k :: 0 <= k < i ==> a[k] == s.arr[k]
        invariant forall k :: i <= k < a.Length ==> a[k] == x
      {
        a[i] := s.arr[i];
      }
      r := Slice(a, s.len + 1);
    }
  }

  datatype HeapScaling = HeapScaling(minReplicas: Cell?<int>, maxReplicas: int, scaleToZero: Cell?<ScaleToZero>)
  datatype HeapEnvVar = HeapEnvVar(name: string, value: string, valueFrom: Cell?<EnvSource>)
  datatype HeapSource = HeapSource(image: string, port: int, healthCheck: Cell?<HealthCheck>)
  datatype HeapSpec = HeapSpec(
    source: HeapSource,
    transport: string,
    endpoint: string,
    scaling: Cell?<HeapScaling>,
    secrets: Slice<ServerSecret>,
    resources: Cell?<Resources>,
    env: Slice<HeapEnvVar>,
    serviceAnnotations: Cell?<Labels>,
    podAnnotations: Cell?<Labels>)

  ghost predicate WellShaped(s: HeapSpec) {
    s.secrets.InBounds() && s.env.InBounds()
  }

  // ------------------------------------------------- what a spec reaches, and means

  ghost function Ref(o: object?): set<object> {
    if o == null then {} else {o}
  }

  ghost function ScalingRefs(c: Cell?<HeapScaling>): set<object>
    reads c
  {
    if c == null then {} else {c} + Ref(c.v.minReplicas) + Ref(c.v.scaleToZero)
  }

  ghost function EnvRefs(s: Slice<HeapEnvVar>): set<object>
    requires s.InBounds()
    reads s.arr
  {
    Ref(s.arr) + set i | 0 <= i < s.len && s.Items()[i].valueFrom != null :: s.Items()[i].valueFrom as object
  }

  /** Every pointer, array and map a spec can reach. */
  ghost function Refs(s: HeapSpec): set<object>
    requires WellShaped(s)
    reads s.scaling, s.env.arr
  {
    Ref(s.source.healthCheck) + ScalingRefs(s.scaling) + Ref(s.secrets.arr) + Ref(s.resources)
    + EnvRefs(s.env) + Ref(s.serviceAnnotations) + Ref(s.podAnnotations)
  }

  ghost function Deref<T>(c: Cell?<T>): Option<T>
    reads c
  {
    if c == null then None else Some(c.v)
  }

  ghost function MapOf(c: Cell?<Labels>): Labels
    reads c
  {
    if c == null then map[] else c.v
  }

  ghost function ScalingValue(c: Cell?<HeapScaling>): Option<ScalingSpec>
    reads c, ScalingRefs(c)
  {
    if c == null then None
    else Some(ScalingSpec(Deref(c.v.minReplicas), c.v.maxReplicas, Deref(c.v.scaleToZero)))
  }

  ghost function EnvVarValue(e: HeapEnvVar): EnvVar
    reads e.valueFrom
  {
    EnvVar(e.name, if e.valueFrom == null then Literal(e.value) else e.valueFrom.v)
  }

  ghost function EnvValue(s: Slice<HeapEnvVar>): (r: seq<EnvVar>)
    requires s.InBounds()
    reads s.arr, EnvRefs(s)
    ensures |r| == s.len
  {
    seq(s.len, i requires 0 <= i < s.len && s.InBounds() reads s.arr, EnvRefs(s) => EnvVarValue(s.Items()[i]))
  }

  /** The spec as a value: what is sent to the API server. */
  ghost function Value(s: HeapSpec): ServerSpec
    requires WellShaped(s)
    reads s.scaling, s.env.arr, Refs(s)
  {
    ServerSpec(
      Source(s.source.image, s.source.port, Deref(s.source.healthCheck)),
      s.transport, s.endpoint, ScalingValue(s.scaling), s.secrets.Items(), Deref(s.resources),
      EnvValue(s.env), MapOf(s.serviceAnnotations), MapOf(s.podAnnotations))
  }

  /** The same fields are nil. */
  predicate SameNils(a: HeapSpec, b: HeapSpec) {
    && (a.source.healthCheck == null <==> b.source.healthCheck == null)
    && (a.scaling == null <==> b.scaling == null)
    && (a.secrets.arr == null <==> b.secrets.arr == null)
    && (a.resources == null <==> b.resources == null)
    && (a.env.arr == null <==> b.env.arr == null)
    && (a.serviceAnnotations == null <==> b.serviceAnnotations == null)
    && (a.podAnnotations == null <==> b.podAnnotations == null)
  }

  /** Two pointers are both nil, or point to the same thing. */
  ghost predicate SamePointee<T>(a: Cell?<T>, b: Cell?<T>)
    reads a, b
  {
    (a == null <==> b == null) && (a != null ==> b != null && a.v == b.v)
  }

  ghost predicate SameScaling(a: Cell?<HeapScaling>, b: Cell?<HeapScaling>)
    reads a, b, ScalingRefs(a), ScalingRefs(b)
  {
    && (a == null <==> b == null)
    && (a != null && b != null ==>
          && a.v.maxReplicas == b.v.maxReplicas
          && SamePointee(a.v.minReplicas, b.v.minReplicas) && SamePointee(a.v.scaleToZero, b.v.scaleToZero))
  }

  ghost predicate SameEnv(a: Slice<HeapEnvVar>, b: Slice<HeapEnvVar>)
    requires a.InBounds() && b.InBounds()
    reads a.arr, b.arr, EnvRefs(a), EnvRefs(b)
  {
    && a.len == b.len
    && forall i :: 0 <= i < a.len ==>
         && a.Items()[i].name == b.Items()[i].name && a.Items()[i].value == b.Items()[i].value
         && SamePointee(a.Items()[i].valueFrom, b.Items()[i].valueFrom)
  }

  /** The specs agree field by field, down to what their pointers point to. */
  ghost predicate SameFields(a: HeapSpec, b: HeapSpec)
    requires WellShaped(a) && WellShaped(b)
    reads a.scaling, a.env.arr, Refs(a), b.scaling, b.env.arr, Refs(b)
  {
    && a.source.image == b.source.image && a.source.port == b.source.port
    && SamePointee(a.source.healthCheck, b.source.healthCheck)
    && a.transport == b.transport && a.endpoint == b.endpoint
    && SameScaling(a.scaling, b.scaling)
    && a.secrets.Items() == b.secrets.Items()
    && SamePointee(a.resources, b.resources)
    && SameEnv(a.env, b.env)
    && SamePointee(a.serviceAnnotations, b.serviceAnnotations)
    && SamePointee(a.podAnnotations, b.podAnnotations)
  }

  // ---------------------------------------------------------------- deep copies

  method CopyPointer<T>(c: Cell?<T>) returns (r: Cell?<T>)
    ensures Deref(r) == Deref(c) && fresh(Ref(r)) && SamePointee(r, c)
  {
    r := null;
    if c != null {
      r := new Cell(c.v);
    }
  }

  method CopyScaling(c: Cell?<HeapScaling>) returns (r: Cell?<HeapScaling>)
    ensures r == null <==> c == null
    ensures fresh(ScalingRefs(r)) && ScalingValue(r) == ScalingValue(c) && SameScaling(r, c)
  {
    r := null;
    if c != null {
      r := new Cell(c.v);
      if c.v.minReplicas != null {
        var p := new Cell(c.v.minReplicas.v);
        r.v := r.v.(minReplicas := p);
      }
      if c.v.scaleToZero != null {
        var p := new Cell(c.v.scaleToZero.v);
        r.v := r.v.(scaleToZero := p);
      }
    }
  }

  method CopySecrets(s: Slice<ServerSecret>) returns (r: Slice<ServerSecret>)
    requires s.InBounds()
    ensures r.InBounds() && (r.arr == null <==> s.arr == null)
    ensures fresh(Ref(r.arr)) && r.Items() == s.Items() && r.Full()
  {
    r := s;
    if s.arr != null {
      var a := new ServerSecret[s.len](_ => ServerSecret("", "", ""));
      for i := 0 to s.len
        invariant forall k :: 0 <= k < i ==> a[k] == s.arr[k]
      {
        a[i] := s.arr[i];
      }
      r := Slice(a, s.len);
    }
  }

  method CopyEnv(s: Slice<HeapEnvVar>) returns (r: Slice<HeapEnvVar>)
    requires s.InBounds()
    ensures r.InBounds() && (r.arr == null <==> s.arr == null)
    ensures fresh(EnvRefs(r)) && EnvValue(r) == EnvValue(s) && SameEnv(r, s)
  {
    r := s;
    if s.arr != null {
      var a := new HeapEnvVar[s.len](_ => HeapEnvVar("", "", null));
      for i := 0 to s.len
        invariant forall k :: 0 <= k < i ==> fresh(Ref(a[k].valueFrom))
        invariant forall k :: 0 <= k < i ==> EnvVarValue(a[k]) == EnvVarValue(s.arr[k])
        invariant forall k :: 0 <= k < i ==>
          a[k].name == s.arr[k].name && a[k].value == s.arr[k].value && SamePointee(a[k].valueFrom, s.arr[k].valueFrom)
      {
        var p := CopyPointer(s.arr[i].valueFrom);
        a[i] := s.arr[i].(valueFrom := p);
      }
      r := Slice(a, s.len);
    }
  }

  /** A map is copied key by key, in any order. */
  method CopyMap(c: Cell?<Labels>) returns (r: Cell?<Labels>)
    ensures r == null <==> c == null
    ensures fresh(Ref(r)) && MapOf(r) == MapOf(c) && SamePointee(r, c)
  {
    r := null;
    if c != null {
      r := new Cell(map[]);
      var rest := c.v.Keys;
      while rest != {}
        invariant rest <= c.v.Keys && r.v.Keys == c.v.Keys - rest
        invariant forall k :: k in r.v ==> r.v[k] == c.v[k]
        decreases rest
      {
        var k :| k in rest;
        r.v := r.v[k := c.v[k]];
        rest := rest - {k};
      }
    }
  }

  /** The pointer fields: source, scaling and resources. */
  method CopyPointers(s: HeapSpec) returns (r: HeapSpec)
    ensures r == s.(source := r.source, scaling := r.scaling, resources := r.resources)
    ensures r.source == s.source.(healthCheck := r.source.healthCheck)
    ensures fresh(Ref(r.source.healthCheck)) && Deref(r.source.healthCheck) == Deref(s.source.healthCheck)
    ensures fresh(ScalingRefs(r.scaling)) && ScalingValue(r.scaling) == ScalingValue(s.scaling)
    ensures SamePointee(r.source.healthCheck, s.source.healthCheck) && SamePointee(r.resources, s.resources)
    ensures SameScaling(r.scaling, s.scaling)
    ensures fresh(Ref(r.resources)) && Deref(r.resources) == Deref(s.resources)
  {
    var healthCheck := CopyPointer(s.source.healthCheck);
    var scaling := CopyScaling(s.scaling);
    var resources := CopyPointer(s.resources);
    r := s.(source := s.source.(healthCheck := healthCheck), scaling := scaling, resources := resources);
  }

  /** The slices and maps. */
  method CopyCollections(s: HeapSpec) returns (r: HeapSpec)
    requires WellShaped(s)
    ensures r == s.(secrets := r.secrets, env := r.env,
                    serviceAnnotations := r.serviceAnnotations, podAnnotations := r.podAnnotations)
    ensures WellShaped(r) && SameNils(r, s)
    ensures fresh(Ref(r.secrets.arr)) && r.secrets.Items() == s.secrets.Items() && r.secrets.Full()
    ensures fresh(EnvRefs(r.env)) && EnvValue(r.env) == EnvValue(s.env) && SameEnv(r.env, s.env)
    ensures SamePointee(r.serviceAnnotations, s.serviceAnnotations) && SamePointee(r.podAnnotations, s.podAnnotations)
    ensures fresh(Ref(r.serviceAnnotations)) && MapOf(r.serviceAnnotations) == MapOf(s.serviceAnnotations)
    ensures fresh(Ref(r.podAnnotations)) && MapOf(r.podAnnotations) == MapOf(s.podAnnotations)
  {
    var secrets := CopySecrets(s.secrets);
    var env := CopyEnv(s.env);
    var serviceAnnotations := CopyMap(s.serviceAnnotations);
    var podAnnotations := CopyMap(s.podAnnotations);
    r := s.(secrets := secrets, env := env,
            serviceAnnotations := serviceAnnotations, podAnnotations := podAnnotations);
  }

  /** MCPServerSpec.DeepCopy: the copy means the same, has nil exactly where the source has, and
      shares no pointer, array or map with anything that existed before. */
  method DeepCopy(s: HeapSpec) returns (r: HeapSpec)
    requires WellShaped(s)
    ensures WellShaped(r) && fresh(Refs(r))
    ensures SameFields(r, s)
    ensures Value(r) == Value(s) && SameNils(r, s)
    ensures r.secrets.Full()
  {
    var p := CopyPointers(s);
    var c := CopyCollections(s);
    r := p.(secrets := c.secrets, env := c.env,
            serviceAnnotations := c.serviceAnnotations, podAnnotations := c.podAnnotations);
    assert Value(r) == Value(s);
    assert SameScaling(r.scaling, s.scaling) && SameEnv(r.env, s.env);
    assert SameFields(r, s);
  }
}
