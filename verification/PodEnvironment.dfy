/** What a container sees of its environment: of several variables with one name the last wins. */
module PodEnvironment {
  import opened Options
  import opened McpTypes
  import opened ChildObjects

  function LastOf(env: seq<EnvVar>, name: string): Option<EnvSource>
    decreases |env|
  {
    if env == [] then None
    else if env[|env| - 1].name == name then Some(env[|env| - 1].source)
    else LastOf(env[..|env| - 1], name)
  }

  predicate Defines(env: seq<EnvVar>, name: string) {
    exists i :: 0 <= i < |env| && env[i].name == name
  }

  lemma {:induction false} LastOfAppend(a: seq<EnvVar>, b: seq<EnvVar>, name: string)
    ensures LastOf(a + b, name) == if LastOf(b, name).Some? then LastOf(b, name) else LastOf(a, name)
    decreases |b|
  {
    if b == [] {
      assert a + b == a;
    } else {
      assert (a + b)[..|a + b| - 1] == a + b[..|b| - 1];
      LastOfAppend(a, b[..|b| - 1], name);
    }
  }

  lemma {:induction false} LastOfDefined(env: seq<EnvVar>, name: string)
    ensures LastOf(env, name).Some? <==> Defines(env, name)
    decreases |env|
  {
    if env != [] {
      LastOfDefined(env[..|env| - 1], name);
    }
  }

  // ------------------------------------------------------- wired secret references

  /** One reference per key, into the Secret of that name. */
  function Wires(secretName: string, keys: seq<string>): seq<ServerSecret> {
    seq(|keys|, i requires 0 <= i < |keys| => ServerSecret(keys[i], secretName, keys[i]))
  }

  function Wired(template: ServerSpec, secretName: string, keys: seq<string>): ServerSpec {
    template.(secrets := template.secrets + Wires(secretName, keys))
  }

  lemma {:induction false} LastWire(secretName: string, keys: seq<string>, name: string)
    ensures LastOf(SecretEnv(Wires(secretName, keys)), name) ==
      if name in keys then Some(FromSecret(secretName, name)) else None
    decreases |keys|
  {
    if keys != [] {
      var n := |keys| - 1;
      var env := SecretEnv(Wires(secretName, keys));
      assert env[..n] == SecretEnv(Wires(secretName, keys[..n]));
      assert keys == keys[..n] + [keys[n]];
      LastWire(secretName, keys[..n], name);
    }
  }

  /** The environment of the main container of a wired server: the template's own variables come
      first, then the provided keys, then whatever secrets the template referred to. */
  lemma WiredEnvironment(template: ServerSpec, secretName: string, keys: seq<string>, name: string)
    ensures LastOf(MainContainer(Wired(template, secretName, keys)).env, name) ==
      if Defines(template.env, name) then LastOf(template.env, name)
      else if name in keys then Some(FromSecret(secretName, name))
      else LastOf(SecretEnv(template.secrets), name)
  {
    var wires := Wires(secretName, keys);
    assert SecretEnv(template.secrets + wires) == SecretEnv(template.secrets) + SecretEnv(wires);
    LastOfAppend(SecretEnv(template.secrets + wires), template.env, name);
    LastOfAppend(SecretEnv(template.secrets), SecretEnv(wires), name);
    LastOfDefined(template.env, name);
    LastWire(secretName, keys, name);
  }

  /** The order in which the keys were wired cannot be seen in the container. */
  lemma WiringOrderIsInvisible(
      template: ServerSpec, secretName: string, keys: seq<string>, other: seq<string>, name: string)
    requires forall k :: k in keys <==> k in other
    ensures LastOf(MainContainer(Wired(template, secretName, keys)).env, name)
      == LastOf(MainContainer(Wired(template, secretName, other)).env, name)
  {
    WiredEnvironment(template, secretName, keys, name);
    WiredEnvironment(template, secretName, other, name);
  }
}
