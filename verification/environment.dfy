/** The process environment the host registry is configured from. */
module Environment {
  import opened Wrappers

  /** An environment as the ordered list of its (name, value) entries, in
      the order `os.environ.items()` yields them. */
  type Env = seq<(string, string)>

  /** `os.environ.get(name)`: the value of the first entry called `name`. */
  function Lookup(env: Env, name: string): (r: Option<string>)
    ensures r.Some? <==> exists i :: 0 <= i < |env| && env[i].0 == name
    ensures r.Some? ==> exists i :: 0 <= i < |env| && env[i] == (name, r.value)
    ensures forall i :: 0 <= i < |env| && env[i].0 == name && (forall j :: 0 <= j < i ==> env[j].0 != name) ==>
                          r == Some(env[i].1)
  {
    if |env| == 0 then None
    else if env[0].0 == name then Some(env[0].1)
    else
      var r := Lookup(env[1..], name);
      assert forall i :: 1 <= i < |env| ==> env[i] == env[1..][i - 1];
      r
  }
}
