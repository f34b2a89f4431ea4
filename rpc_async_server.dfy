/**
 * The asynchronous RPC server of p11-kit (p11-kit/rpc-async-server.c).
 *
 * A server owns a base virtual layer over one PKCS#11 module and a pool of ten workers. A call
 * object carries a copy of one request message; invoking it queues it on the pool, a worker
 * decodes and runs it against the module, writes the reply into the call's buffer and reports
 * through the call's `ready` callback.
 *
 * The RPC message codec (p11_rpc_server_handle) is outside this model: its outcome for a call,
 * whether the message was handled and the bytes it leaves in the call's buffer, is a parameter
 * of the worker step. Callbacks are recorded as events.
 */
module RpcAsyncServer {
  import opened Wrappers
  import Virtual
  import Tpool

  newtype uint32 = x: int | 0 <= x < 0x1_0000_0000
  newtype byte = x: int | 0 <= x < 0x100

  /** P11_RPC_ASYNC_SERVER_MAX_THREADS */
  const MaxThreads: nat := 10

  /** p11_rpc_status as reported to the ready callback. */
  datatype Status = Ok | Error

  /** An opaque callback pointer and an opaque user-data pointer. */
  type Callback = nat
  type Data = nat

  /** A callback invocation made on behalf of a call. */
  datatype Event =
    | Ready(fn: Callback, call: Call, status: Status, data: Data)  // ready(call, status, data)
    | DataDestroyed(fn: Callback, data: Data)                     // data_destroy(data)

  /** The serial after `server->serial++` on a uint32_t. */
  function NextSerial(s: uint32): (r: uint32)
    ensures r as int == (s as int + 1) % 0x1_0000_0000
  {
    if s == 0xFFFF_FFFF then 0 else s + 1
  }

  /** The serial after k calls have been created. */
  function Advance(s: uint32, k: nat): uint32 {
    if k == 0 then s else NextSerial(Advance(s, k - 1))
  }

  /** k increments of the serial add k modulo 2^32. */
  lemma {:induction false} AdvanceAdds(s: uint32, k: nat)
    ensures Advance(s, k) as int == (s as int + k) % 0x1_0000_0000
  {
    if k > 0 {
      AdvanceAdds(s, k - 1);
      ModSucc(s as int + k - 1);
    }
  }

  /** Adding one commutes with reduction modulo 2^32. */
  lemma ModSucc(a: nat)
    ensures (a % 0x1_0000_0000 + 1) % 0x1_0000_0000 == (a + 1) % 0x1_0000_0000
  {
    var q, r := a / 0x1_0000_0000, a % 0x1_0000_0000;
    assert a == q * 0x1_0000_0000 + r;
    if r + 1 < 0x1_0000_0000 {
      assert a + 1 == q * 0x1_0000_0000 + (r + 1);
    } else {
      assert a + 1 == (q + 1) * 0x1_0000_0000;
    }
  }

  /** Calls created from one server get distinct serials as long as fewer than 2^32 are
      created. */
  lemma SerialsDistinct(s: uint32, k1: nat, k2: nat)
    requires k1 < k2 < 0x1_0000_0000
    ensures Advance(s, k1) != Advance(s, k2)
  {
    AdvanceAdds(s, k1);
    AdvanceAdds(s, k2);
  }

  /** The serial wraps: starting from 1, the (2^32 - 1)-th call after the first gets serial 0
      and the one after that repeats serial 1. */
  lemma SerialWraps()
    ensures Advance(1, 0xFFFF_FFFF) == 0
    ensures Advance(1, 0x1_0000_0000) == 1
  {
    AdvanceAdds(1, 0xFFFF_FFFF);
    assert (1 + 0xFFFF_FFFF) % 0x1_0000_0000 == 0;
    AdvanceAdds(1, 0x1_0000_0000);
    assert (1 + 0x1_0000_0000) % 0x1_0000_0000 == 1;
  }

  /** No task of the pool carries a destroyer or a canceller. */
  ghost predicate NoCallbacks(ts: seq<Tpool.Task<Call>>) {
    forall k :: 0 <= k < |ts| ==> ts[k].destroyer.None? && ts[k].canceller.None?
  }

  /** A p11_buffer, by its contents. */
  class Buffer {
    var contents: seq<byte>

    constructor (contents: seq<byte>)
      ensures this.contents == contents
    {
      this.contents := contents;
    }
  }

  /** p11_rpc_async_server. */
  class Server {
    const virt: Virtual.Virtual
    var serial: uint32
    const pool: Tpool.Pool<Call>

    /** The layer is the base layer over a module, the pool has its ten workers, and the pool
        never holds a callback it would run on a call. */
    ghost predicate Valid()
      reads this, pool
    {
      && pool.Valid()
      && pool.numThreads == MaxThreads
      && Virtual.WellFormed(virt)
      && virt.lowerDestroy.None?
      && NoCallbacks(pool.cells)
    }

    constructor (virt: Virtual.Virtual, pool: Tpool.Pool<Call>)
      ensures this.virt == virt && this.pool == pool && serial == 1
    {
      this.virt := virt;
      this.pool := pool;
      serial := 1;
    }

    /** The calls still queued on the pool. */
    ghost function Queued(): set<Call>
      reads this, pool
    {
      set t <- pool.cells :: t.data
    }

    /** One iteration of a pool worker running async_server_handle_call: `handled` and `reply`
        are the codec's outcome for the call it picks up. */
    method WorkerStep(handled: bool, reply: seq<byte>) returns (ev: Option<Event>)
      requires Valid()
      modifies pool`head, pool`log, Queued()
      ensures Valid()
      ensures var c := old(pool.Contents());
        old(pool.running) && c != [] ==>
          && ev == Some(Ready(c[0].data.ready, c[0].data, if handled then Ok else Error, c[0].data.data))
          && c[0].data.buffer == reply
          && pool.Contents() == c[1..]
          && pool.log == old(pool.log) + [Tpool.Dispatched(c[0].data)]
      ensures !old(pool.running) || old(pool.Contents()) == [] ==>
        ev == None && pool.head == old(pool.head) && pool.log == old(pool.log)
      ensures forall q :: q in old(Queued()) ==>
        q.buffer == old(q.buffer)
        || (old(pool.running) && old(pool.Contents()) != [] && q == old(pool.Contents())[0].data)
    {
      ghost var c := pool.Contents();
      assert c != [] ==> c[0] == pool.cells[pool.Consumed()];
      var popped := pool.WorkerStep();
      if popped.Some? {
        var e := HandleCall(popped.value, handled, reply);
        ev := Some(e);
      } else {
        ev := None;
      }
    }
  }

  /** p11_rpc_async_call. */
  class Call {
    const server: Server
    var buffer: seq<byte>
    const serial: uint32
    const ready: Callback
    const data: Data
    const dataDestroy: Option<Callback>

    constructor (server: Server, buffer: seq<byte>, serial: uint32,
                 ready: Callback, data: Data, dataDestroy: Option<Callback>)
      ensures this.server == server && this.buffer == buffer && this.serial == serial
      ensures this.ready == ready && this.data == data && this.dataDestroy == dataDestroy
    {
      this.server := server;
      this.buffer := buffer;
      this.serial := serial;
      this.ready := ready;
      this.data := data;
      this.dataDestroy := dataDestroy;
    }

    /** p11_rpc_async_call_get_serial */
    function GetSerial(): uint32 {
      serial
    }

    /** p11_rpc_async_call_invoke: queue the call on its server's pool, with neither a
        destroyer nor a canceller, so the pool never frees it; the result is the push's. */
    method Invoke(allocOk: bool) returns (ok: bool)
      requires server.Valid()
      modifies server.pool`cells, server.pool`next, server.pool`head, server.pool`tail
      ensures server.Valid()
      ensures ok <==> allocOk && server.pool.running
      ensures ok ==> server.pool.Contents() == old(server.pool.Contents()) + [Tpool.Task(this, None, None)]
      ensures !ok ==> server.pool.cells == old(server.pool.cells)
    {
      ok := server.pool.Push(this, None, None, allocOk);
    }

    /** p11_rpc_async_call_steal_output: the target buffer is reset and receives a copy of the
        call's buffer. */
    method StealOutput(target: Buffer)
      modifies target
      ensures target.contents == buffer
    {
      target.contents := [];
      target.contents := target.contents + buffer;
    }

    /** p11_rpc_async_call_free: the user data is destroyed iff a destroyer was given. */
    method Free() returns (events: seq<Event>)
      ensures dataDestroy.Some? ==> events == [DataDestroyed(dataDestroy.value, data)]
      ensures dataDestroy.None? ==> events == []
    {
      events := [];
      if dataDestroy.Some? {
        events := events + [DataDestroyed(dataDestroy.value, data)];
      }
    }
  }

  /** async_server_handle_call: run the codec on the call's buffer and report its status to
      the ready callback, exactly once. */
  method HandleCall(call: Call, handled: bool, reply: seq<byte>) returns (ev: Event)
    modifies call`buffer
    ensures call.buffer == reply
    ensures ev.Ready? && ev.fn == call.ready && ev.call == call && ev.data == call.data
    ensures ev.status == Ok <==> handled
  {
    call.buffer := reply;
    var status := if handled then Ok else Error;
    ev := Ready(call.ready, call, status, call.data);
  }

  /** p11_rpc_async_server_new: `allocOk` is whether the server could be allocated;
      `poolAllocOk`, `threadsAllocOk` and `creatable` are the pool's allocation and
      thread-creation outcomes, with the pool created as Tpool.NewPool intends. */
  method ServerNew(lower: Virtual.FunctionList, allocOk: bool, poolAllocOk: bool, threadsAllocOk: bool,
                   creatable: nat)
    returns (s: Server?)
    requires |lower.slots| == Virtual.NumSlots
    ensures s != null <==> allocOk && poolAllocOk && threadsAllocOk && MaxThreads <= creatable
    ensures s != null ==> fresh(s) && fresh(s.pool) && s.Valid()
    ensures s != null ==> s.serial == 1 && s.virt == Virtual.VirtualInit(Virtual.VirtualBase(), Virtual.ModuleRef(lower), None)
    ensures s != null ==> s.pool.running && s.pool.Contents() == [] && s.pool.log == []
  {
    if !allocOk {
      return null;
    }
    var virt := Virtual.VirtualInit(Virtual.VirtualBase(), Virtual.ModuleRef(lower), None);
    Virtual.BaseLayerOverModule(lower);
    var pool := Tpool.NewPool<Call>(MaxThreads, poolAllocOk, threadsAllocOk, creatable);
    if pool == null {
      return null;
    }
    s := new Server(virt, pool);
  }

  /** p11_rpc_async_call_new: `allocOk` is whether the call could be allocated and `bufferOk`
      whether its buffer could be sized for the request. The call holds a copy of the request's
      bytes and takes the server's current serial. */
  method CallNew(server: Server, request: Buffer, ready: Callback, data: Data,
                 dataDestroy: Option<Callback>, allocOk: bool, bufferOk: bool)
    returns (call: Call?)
    modifies server`serial
    ensures call != null <==> allocOk && bufferOk
    ensures call != null ==> fresh(call) && call.server == server && call.buffer == request.contents
    ensures call != null ==> call.GetSerial() == old(server.serial) && server.serial == NextSerial(old(server.serial))
    ensures call != null ==> call.ready == ready && call.data == data && call.dataDestroy == dataDestroy
    ensures call == null ==> server.serial == old(server.serial)
  {
    if !allocOk || !bufferOk {
      return null;
    }
    var serial := server.serial;
    server.serial := NextSerial(server.serial);
    call := new Call(server, [] + request.contents, serial, ready, data, dataDestroy);
  }

  /** p11_rpc_async_server_free: the pool is freed without waiting (up to `inFlight` started
      workers still run the call they had reached) and the layer is uninitialised. The pool
      frees no call and cancels none, and the layer has no destroyer to call. */
  method ServerFree(server: Server, inFlight: nat) returns (calls: seq<Virtual.DestroyCall>)
    requires server.Valid() && server.pool.running && inFlight <= server.pool.numStarted
    modifies server.pool`numStarted, server.pool`head, server.pool`log, server.pool`running
    ensures !server.pool.running && calls == []
    ensures var c := old(server.pool.Contents());
      var m := if inFlight < |c| then inFlight else |c|;
      server.pool.log == old(server.pool.log) + Tpool.Dispatches(c[..m])
  {
    ghost var c := server.pool.Contents();
    ghost var m := if inFlight < |c| then inFlight else |c|;
    assert NoCallbacks(c) by {
      forall k | 0 <= k < |c| ensures c[k].destroyer.None? && c[k].canceller.None? {
        assert c[k] == server.pool.cells[server.pool.Consumed() + k];
      }
    }
    server.pool.Free(false, inFlight);
    Tpool.NoCallbacks(c[..m]);
    Tpool.NoCallbacks(c[m..]);
    calls := Virtual.VirtualUninit(server.virt);
  }
}
