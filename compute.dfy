/** The compute service as the step sees it: create, wait for a state, delete and
    force-delete. The provider's replies are an oracle that may depend on every call
    made before; the `Cloud` object records the calls in order. */
module Compute {
  import opened Wrappers
  import opened ServerOptions

  /** `servers.Server`: the provider-assigned identifier and the last known status. */
  datatype Server = Server(id: string, status: string)

  /** The `StateChangeConf` handed to `WaitForState`: pending and target status lists,
      and whether the step state is attached (so that a halted pipeline cancels it). */
  datatype WaitConf = WaitConf(pending: seq<string>, target: seq<string>, cancellable: bool)

  datatype Call =
    | CreateCall(req: Request)
    | WaitCall(id: string, conf: WaitConf)
    | DeleteCall(id: string, force: bool)

  /** The provider's replies, each a function of the calls made so far and of the
      arguments. `wait` abstracts the whole `WaitForState` polling loop; `delete`
      answers with the error, if any. */
  datatype Provider = Provider(
    create: (seq<Call>, Request) -> Result<Server, string>,
    wait: (seq<Call>, Server, WaitConf) -> Result<Server, string>,
    delete: (seq<Call>, string, bool) -> Option<string>)

  /** A poller that only reports success once a target status was observed. */
  ghost predicate PollerSound(p: Provider)
  {
    forall h, s, c :: p.wait(h, s, c).Success? ==> p.wait(h, s, c).value.status in c.target
  }

  /** The creation requests among `calls`, in order. */
  function CreateRequests(calls: seq<Call>): (rs: seq<Request>)
    ensures |rs| <= |calls|
  {
    if calls == [] then []
    else (if calls[0].CreateCall? then [calls[0].req] else []) + CreateRequests(calls[1..])
  }

  lemma {:induction false} CreateRequestsAppend(a: seq<Call>, b: seq<Call>)
    ensures CreateRequests(a + b) == CreateRequests(a) + CreateRequests(b)
  {
    if a != [] {
      assert (a + b)[1..] == a[1..] + b;
      CreateRequestsAppend(a[1..], b);
    } else {
      assert a + b == b;
    }
  }

  class Cloud {
    const provider: Provider
    var calls: seq<Call>

    constructor (provider: Provider)
      ensures this.provider == provider && calls == []
    {
      this.provider := provider;
      calls := [];
    }

    /** `servers.Create(client, opts).Extract()`. */
    method Create(req: Request) returns (r: Result<Server, string>)
      modifies this
      ensures r == provider.create(old(calls), req)
      ensures calls == old(calls) + [CreateCall(req)]
    {
      r := provider.create(calls, req);
      calls := calls + [CreateCall(req)];
    }

    /** `WaitForState`, polling the server's status through `ServerStateRefreshFunc`. */
    method WaitForState(server: Server, conf: WaitConf) returns (r: Result<Server, string>)
      modifies this
      ensures r == provider.wait(old(calls), server, conf)
      ensures calls == old(calls) + [WaitCall(server.id, conf)]
    {
      r := provider.wait(calls, server, conf);
      calls := calls + [WaitCall(server.id, conf)];
    }

    /** `servers.Delete(client, id).ExtractErr()`. */
    method Delete(id: string) returns (err: Option<string>)
      modifies this
      ensures err == provider.delete(old(calls), id, false)
      ensures calls == old(calls) + [DeleteCall(id, false)]
    {
      err := provider.delete(calls, id, false);
      calls := calls + [DeleteCall(id, false)];
    }

    /** `servers.ForceDelete(client, id).ExtractErr()`. */
    method ForceDelete(id: string) returns (err: Option<string>)
      modifies this
      ensures err == provider.delete(old(calls), id, true)
      ensures calls == old(calls) + [DeleteCall(id, true)]
    {
      err := provider.delete(calls, id, true);
      calls := calls + [DeleteCall(id, true)];
    }
  }
}
