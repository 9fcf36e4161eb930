/**
 * The `FlaskCuttlePool` extension object. The ambient Flask state it
 * consults (`stack.top` and `current_app`) is the parameter `top`: the
 * application context on top of the stack, if any.
 */
module Extension {
  import opened Wrappers
  import opened PoolConfig
  import opened CuttlePool
  import opened Flask

  /** `RuntimeError('No application found.')`. */
  datatype Error = NoApplicationFound

  class FlaskCuttlePool<V> {
    /** `_app`: the default application given to the constructor. */
    const app: Option<App<V>>
    /** `_cuttlepool_kwargs`. */
    const cuttlepoolKwargs: map<string, V>

    constructor (capacity: V, overflow: V, timeout: V, app: Option<App<V>>, kwargs: map<string, V>)
      ensures this.app == app
      ensures cuttlepoolKwargs == StoredKwargs(kwargs, capacity, overflow, timeout)
    {
      this.app := app;
      cuttlepoolKwargs := kwargs["capacity" := capacity]["overflow" := overflow]["timeout" := timeout];
    }

    /** `_get_app`: the current application, else the default one, else an error. */
    function GetApp(top: Option<AppContext<V>>): (r: Result<App<V>, Error>)
      reads this
      ensures r.Err? <==> top.None? && app.None?
      ensures top.Some? ==> r == Ok(top.value.app)
      ensures top.None? && app.Some? ==> r == Ok(app.value)
    {
      if top.Some? then Ok(top.value.app)
      else if app.Some? then Ok(app.value)
      else Err(NoApplicationFound)
    }

    /** The application whose `extensions` a call may write. */
    function Selected(top: Option<AppContext<V>>): set<object>
      reads this
    {
      match GetApp(top)
      case Ok(a) => {a}
      case Err(_) => {}
    }

    /** The selected application and the pool in its slot, if any. */
    function SelectedWithPool(top: Option<AppContext<V>>): set<object>
      reads this, Selected(top)
    {
      match GetApp(top)
      case Ok(a) => {a} + a.PoolObjects()
      case Err(_) => {}
    }

    /** `_make_pool`: a new pool, made from a copy of the stored kwargs updated by the app config. */
    method MakePool(top: Option<AppContext<V>>) returns (r: Result<Pool<V>, Error>)
      ensures GetApp(top).Err? ==> r == Err(NoApplicationFound)
      ensures GetApp(top).Ok? ==> r.Ok? && fresh(r.value)
      ensures GetApp(top).Ok? ==> r.value.args == PoolArguments(cuttlepoolKwargs, GetApp(top).value.config)
      ensures GetApp(top).Ok? ==> r.value.issued == []
    {
      var kwargs := cuttlepoolKwargs;
      var found := GetApp(top);
      if found.Err? {
        return Err(found.error);
      }
      kwargs := kwargs + ConfigOverrides(found.value.config);
      var pool := new Pool(kwargs);
      r := Ok(pool);
    }

    /** `_get_pool`: the pool in the application's `cuttlepool` slot, made on first use. */
    method GetPool(top: Option<AppContext<V>>) returns (r: Result<Pool<V>, Error>)
      modifies Selected(top)
      ensures GetApp(top).Err? ==> r == Err(NoApplicationFound)
      ensures GetApp(top).Ok? ==> r.Ok? && GetApp(top).value.cuttlepool == Some(r.value)
      ensures GetApp(top).Ok? ==> GetApp(top).value.config == old(GetApp(top).value.config)
      ensures GetApp(top).Ok? && old(GetApp(top).value.cuttlepool).Some? ==>
                r.value == old(GetApp(top).value.cuttlepool).value
      ensures GetApp(top).Ok? && old(GetApp(top).value.cuttlepool).None? ==>
                fresh(r.value) && r.value.args == PoolArguments(cuttlepoolKwargs, GetApp(top).value.config)
      ensures GetApp(top).Ok? ==> GetApp(top).value.Issued() == old(GetApp(top).value.Issued())
    {
      var found := GetApp(top);
      if found.Err? {
        return Err(found.error);
      }
      var a := found.value;
      if a.cuttlepool.None? {
        var made := MakePool(top);
        a.cuttlepool := Some(made.value);
      }
      r := Ok(a.cuttlepool.value);
    }

    /** `get_connection`: a new connection from the application's pool. */
    method GetConnection(top: Option<AppContext<V>>) returns (r: Result<PoolConnection, Error>)
      modifies SelectedWithPool(top)
      ensures GetApp(top).Err? ==> r == Err(NoApplicationFound)
      ensures GetApp(top).Ok? ==> r.Ok? && fresh(r.value) && r.value.live
      ensures GetApp(top).Ok? ==> GetApp(top).value.cuttlepool.Some?
      ensures GetApp(top).Ok? ==> GetApp(top).value.config == old(GetApp(top).value.config)
      ensures GetApp(top).Ok? && old(GetApp(top).value.cuttlepool).Some? ==>
                GetApp(top).value.cuttlepool == old(GetApp(top).value.cuttlepool)
      ensures GetApp(top).Ok? && old(GetApp(top).value.cuttlepool).None? ==>
                && fresh(GetApp(top).value.cuttlepool.value)
                && GetApp(top).value.cuttlepool.value.args == PoolArguments(cuttlepoolKwargs, GetApp(top).value.config)
      ensures GetApp(top).Ok? ==> GetApp(top).value.Issued() == old(GetApp(top).value.Issued()) + [r.value]
    {
      var pool := GetPool(top);
      if pool.Err? {
        return Err(pool.error);
      }
      var c := pool.value.GetConnection();
      r := Ok(c);
    }

    /** `teardown`: close the connection cached on the top context, if there is one. */
    method Teardown(top: Option<AppContext<V>>)
      modifies if top.Some? then top.value.Held() else {}
      ensures top.Some? && top.value.cuttlepoolConnection.Some? ==> !top.value.cuttlepoolConnection.value.live
    {
      if top.Some? && top.value.cuttlepoolConnection.Some? {
        top.value.cuttlepoolConnection.value.Close();
      }
    }

    /**
     * What the `connection` property may write: the context, its app's
     * slot, the app's pool and the cached connection.
     */
    function ConnectionFrame(top: Option<AppContext<V>>): set<object>
      reads if top.Some? then {top.value, top.value.app} else {}
    {
      if top.Some? then {top.value, top.value.app} + top.value.app.PoolObjects() + top.value.Held() else {}
    }

    /**
     * The `connection` property. `pingOk` is what the pool's `ping`
     * answers for the cached connection; it is only consulted when that
     * connection is still open.
     */
    method Connection(top: Option<AppContext<V>>, pingOk: bool) returns (r: Option<PoolConnection>)
      modifies ConnectionFrame(top)
      decreases if top.Some? && top.value.HoldsLive() then 1 else 0
      ensures top.None? ==> r == None
      ensures top.Some? ==> r.Some? && r == top.value.cuttlepoolConnection && r.value.live
      ensures top.Some? && !old(top.value.HoldsLive()) ==> fresh(r.value)
      ensures top.Some? && old(top.value.HoldsLive()) && pingOk ==>
                r == old(top.value.cuttlepoolConnection)
      ensures top.Some? && old(top.value.HoldsLive()) && !pingOk ==>
                fresh(r.value) && !old(top.value.cuttlepoolConnection).value.live
      ensures top.Some? && old(top.value.cuttlepoolConnection).Some? && !old(top.value.HoldsLive()) ==>
                !old(top.value.cuttlepoolConnection).value.live
      ensures top.Some? ==> top.value.app.cuttlepool.Some?
      ensures top.Some? && old(top.value.app.cuttlepool).Some? ==>
                top.value.app.cuttlepool == old(top.value.app.cuttlepool)
      ensures top.Some? && old(top.value.app.cuttlepool).None? ==>
                && fresh(top.value.app.cuttlepool.value)
                && top.value.app.cuttlepool.value.args == PoolArguments(cuttlepoolKwargs, top.value.app.config)
      ensures top.Some? ==> top.value.app.config == old(top.value.app.config)
      ensures top.Some? ==>
                top.value.app.Issued() ==
                old(top.value.app.Issued()) + (if old(top.value.HoldsLive()) && pingOk then [] else [r.value])
    {
      if top.None? {
        return None;
      }
      var ctx := top.value;
      if ctx.cuttlepoolConnection.None? || !ctx.cuttlepoolConnection.value.live {
        var c := GetConnection(top);
        ctx.cuttlepoolConnection := Some(c.value);
      } else {
        var pool := GetPool(top);
        if !pingOk {
          ctx.cuttlepoolConnection.value.Close();
          var again := Connection(top, pingOk);
          ctx.cuttlepoolConnection := again;
        }
      }
      r := ctx.cuttlepoolConnection;
    }
  }
}
