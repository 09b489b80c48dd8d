/** The connection state cell of ShizukuService: the static pair (binder, service),
    the queries over it, and the request bundles of addUserService and
    removeUserService. */
module Connection {
  import opened Results
  import opened Bundles
  import opened ApiConstants

  /** An IPC endpoint (android.os.IBinder), compared by identity. Whether the
      remote process is alive is decided outside this library. */
  class Binder {
    var alive: bool

    constructor (alive: bool)
      ensures this.alive == alive
    {
      this.alive := alive;
    }

    /** IBinder.pingBinder: whether the remote side still answers. */
    predicate PingBinder()
      reads this
    {
      alive
    }

    /** IBinder.linkToDeath: a best-effort death subscription. Here it fails
        exactly when the endpoint is already dead, and it changes nothing. */
    method LinkToDeath() returns (linked: bool)
    {
      linked := alive;
    }
  }

  /** The typed proxy (IShizukuService) that the AIDL stub wraps around a binder. */
  datatype Proxy = Proxy(remote: Binder) {
    /** IInterface.asBinder: the binder the proxy sends its transactions to. */
    function AsBinder(): Binder
    {
      remote
    }
  }

  /** IShizukuService.Stub.asInterface for a non-null binder. */
  function AsInterface(b: Binder): Proxy
  {
    Proxy(b)
  }

  /** The two static fields, taken together as one value. */
  datatype Conn = Conn(binder: Binder?, service: Option<Proxy>)

  /** The state before any binder has been received. */
  const Unbound: Conn := Conn(null, None)

  /** The invariant of the pair: a proxy is held exactly when a binder is, and
      it is a proxy for that binder. */
  ghost predicate Consistent(c: Conn)
  {
    && (c.service.None? <==> c.binder == null)
    && (c.service.Some? ==> c.service.value.AsBinder() == c.binder)
  }

  /** The one consistent state that holds binder b. */
  function BoundTo(b: Binder?): (c: Conn)
    ensures Consistent(c) && c.binder == b
  {
    if b == null then Unbound else Conn(b, Some(AsInterface(b)))
  }

  /** A consistent state is determined by the binder it holds. */
  lemma ConsistentIsBoundTo(c: Conn)
    requires Consistent(c)
    ensures c == BoundTo(c.binder)
  {
  }

  /** The state setBinder(b) leaves behind when called in state c. */
  function SetBinderStep(c: Conn, b: Binder?): (r: Conn)
    ensures r.binder == b
    ensures c.binder == b ==> r == c
    ensures Consistent(c) ==> Consistent(r)
    ensures b == null && c.binder != null ==> r == Unbound
    ensures b != null && c.binder != b ==> r.service == Some(AsInterface(b))
  {
    if c.binder == b then c
    else if b == null then Unbound
    else Conn(b, Some(AsInterface(b)))
  }

  /** The state after the calls setBinder(bs[0]), ..., setBinder(bs[|bs| - 1]). */
  function Replay(c: Conn, bs: seq<Binder?>): (r: Conn)
    ensures |bs| > 0 ==> r.binder == bs[|bs| - 1]
    ensures Consistent(c) ==> Consistent(r)
    ensures Consistent(c) && |bs| > 0 ==> r == BoundTo(bs[|bs| - 1])
    decreases |bs|
  {
    if bs == [] then c else Replay(SetBinderStep(c, bs[0]), bs[1..])
  }

  /** How many of the calls setBinder(bs[0]), ... install a different proxy. */
  function ProxyChanges(c: Conn, bs: seq<Binder?>): nat
    decreases |bs|
  {
    if bs == [] then 0
    else
      var next := SetBinderStep(c, bs[0]);
      (if next.service != c.service then 1 else 0) + ProxyChanges(next, bs[1..])
  }

  /** Calls that pass the binder already held change nothing. */
  lemma {:induction false} ReplayHeldBinder(c: Conn, bs: seq<Binder?>)
    requires forall i | 0 <= i < |bs| :: bs[i] == c.binder
    ensures Replay(c, bs) == c
    ensures ProxyChanges(c, bs) == 0
    decreases |bs|
  {
    if bs != [] {
      ReplayHeldBinder(SetBinderStep(c, bs[0]), bs[1..]);
    }
  }

  /** Repeating setBinder(b) any number of times acts like one call, so the
      proxy changes at most once. */
  lemma {:induction false} RepeatedSetBinder(c: Conn, b: Binder?, bs: seq<Binder?>)
    requires |bs| > 0
    requires forall i | 0 <= i < |bs| :: bs[i] == b
    ensures Replay(c, bs) == SetBinderStep(c, b)
    ensures ProxyChanges(c, bs) <= 1
  {
    ReplayHeldBinder(SetBinderStep(c, b), bs[1..]);
  }

  /** A transaction handed to IBinder.transact: the target binder, the data
      parcel and the flags, forwarded as the caller gave them. */
  datatype Transaction = Transaction(target: Binder, data: seq<bv8>, flags: Int32)

  /** A user-service request: the proxy it is sent to and its options bundle. */
  datatype Request = Request(target: Proxy, options: Bundle)

  /** The static part of ShizukuService: one instance stands for the class. */
  class ShizukuService {
    var binder: Binder?
    var service: Option<Proxy>

    /** The pair of fields as one value. */
    function State(): Conn
      reads this
    {
      Conn(binder, service)
    }

    ghost predicate Valid()
      reads this
    {
      Consistent(State())
    }

    /** Both static fields start out null. */
    constructor ()
      ensures Valid() && State() == Unbound
    {
      binder := null;
      service := None;
    }

    /** setBinder: a no-op for the binder already held; null clears both
        fields; any other binder is stored with its proxy, and the failure of
        the death subscription is ignored. */
    method SetBinder(b: Binder?)
      requires Valid()
      modifies this
      ensures Valid()
      ensures State() == SetBinderStep(old(State()), b)
    {
      if binder == b {
        return;
      }
      if b == null {
        binder := null;
        service := None;
      } else {
        binder := b;
        service := Some(AsInterface(b));
        var linked := b.LinkToDeath();
      }
    }

    /** requireService: the held proxy, or IllegalStateException when no
        binder has been received. */
    function RequireService(): (r: Result<Proxy>)
      reads this
      requires Valid()
      ensures r.Failure? <==> binder == null
      ensures r.Failure? ==> r.error == IllegalState(NotReceivedMessage)
      ensures r.Success? ==> service == Some(r.value) && r.value.AsBinder() == binder
    {
      if service.None? then Failure(IllegalState(NotReceivedMessage)) else Success(service.value)
    }

    /** getBinder: null exactly when requireService would fail; otherwise the
        binder the held proxy talks to. */
    function GetBinder(): (b: Binder?)
      reads this
      requires Valid()
      ensures b == null <==> RequireService().Failure?
      ensures b != null ==> RequireService().value.AsBinder() == b
    {
      binder
    }

    /** pingBinder: false when no binder is held, never fails. */
    function PingBinder(): (alive: bool)
      reads this, binder
      requires Valid()
      ensures alive ==> RequireService().Success?
      ensures binder != null ==> (alive <==> binder.PingBinder())
    {
      binder != null && binder.PingBinder()
    }

    /** transactRemote: the transaction goes to the binder behind the held
        proxy, with the caller's data and flags unchanged. */
    method TransactRemote(data: seq<bv8>, flags: Int32) returns (r: Result<Transaction>)
      requires Valid()
      ensures r.Failure? <==> binder == null
      ensures r.Failure? ==> r.error == IllegalState(NotReceivedMessage)
      ensures r.Success? ==> r.value.target == binder && r.value.data == data && r.value.flags == flags
    {
      var s := RequireService();
      if s.Failure? {
        return Failure(s.error);
      }
      r := Success(Transaction(s.value.AsBinder(), data, flags));
    }

    /** addUserService: stores the caller's package name in the caller's own
        bundle, before checking the connection, and sends that bundle. */
    method AddUserService(packageName: string, options: Bundle) returns (r: Result<Request>)
      requires Valid()
      modifies options
      ensures options.entries == old(options.entries)[ArgPackageName := Str(packageName)]
      ensures r.Failure? <==> binder == null
      ensures r.Failure? ==> r.error == IllegalState(NotReceivedMessage)
      ensures r.Success? ==> r.value == Request(service.value, options)
    {
      options.PutString(ArgPackageName, packageName);
      var s := RequireService();
      if s.Failure? {
        return Failure(s.error);
      }
      r := Success(Request(s.value, options));
    }

    /** removeUserService: a new bundle holding exactly the id and the caller's
        package name; a null id fails before the connection is checked. */
    method RemoveUserService(packageName: string, id: Option<string>) returns (r: Result<Request>)
      requires Valid()
      ensures id.None? ==> r == Failure(NullPointer(IdNullMessage))
      ensures id.Some? && binder == null ==> r == Failure(IllegalState(NotReceivedMessage))
      ensures r.Success? <==> id.Some? && binder != null
      ensures r.Success? ==> r.value.target == service.value && fresh(r.value.options)
      ensures r.Success? ==> r.value.options.entries == map[ArgId := Str(id.value), ArgPackageName := Str(packageName)]
    {
      var options := new Bundle();
      if id.None? {
        return Failure(NullPointer(IdNullMessage));
      }
      options.PutString(ArgId, id.value);
      options.PutString(ArgPackageName, packageName);
      var s := RequireService();
      if s.Failure? {
        return Failure(s.error);
      }
      r := Success(Request(s.value, options));
    }
  }
}
