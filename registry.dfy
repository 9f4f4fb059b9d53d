/**
 * `NativeLambdaRegistry`: the host callbacks a program may call, numbered in
 * the order they were added; `Nal id` pushes entry `id`.
 */
module Registry {
  import opened Wrappers
  import opened Values

  class NativeLambdaRegistry {
    var lambdas: seq<NativeLambdaObj>

    constructor ()
      ensures lambdas == []
    {
      lambdas := [];
    }

    /** `add`: appends a new native lambda and returns its id, the new length minus one. */
    method Add(call: Value -> Value) returns (id: nat)
      modifies this
      ensures |lambdas| == old(|lambdas|) + 1 && id == old(|lambdas|)
      ensures lambdas[..id] == old(lambdas)
      ensures fresh(lambdas[id]) && lambdas[id].call == call
      ensures Get(id) == Some(lambdas[id])
    {
      var lambda := new NativeLambdaObj(call);
      lambdas := lambdas + [lambda];
      id := |lambdas| - 1;
    }

    /** `get`: the entry with that id, if that many have been added. */
    function Get(id: nat): (r: Option<NativeLambdaObj>)
      reads this
      ensures r.Some? <==> id < |lambdas|
      ensures r.Some? ==> r.value == lambdas[id]
    {
      if id < |lambdas| then Some(lambdas[id]) else None
    }
  }
}
