/**
 * The Flask state the extension reads and writes: an application's config
 * and its `extensions['cuttlepool']` slot, and the attribute the extension
 * sets on an application context.
 */
module Flask {
  import opened Wrappers
  import opened CuttlePool

  /** A Flask application object. */
  class App<V> {
    /** `app.config`, in iteration order. */
    var config: seq<(string, V)>
    /** `app.extensions['cuttlepool']`; None when the slot (or `extensions`) is missing. */
    var cuttlepool: Option<Pool<V>>

    constructor (config: seq<(string, V)>)
      ensures this.config == config && cuttlepool == None
    {
      this.config := config;
      cuttlepool := None;
    }

    /** The pool in the slot, if any. */
    function PoolObjects(): set<object>
      reads this
    {
      if cuttlepool.Some? then {cuttlepool.value} else {}
    }

    /** The connections the app's pool has handed out; none while there is no pool. */
    function Issued(): seq<PoolConnection>
      reads this, PoolObjects()
    {
      if cuttlepool.Some? then cuttlepool.value.issued else []
    }
  }

  /** An application context; `current_app` is the `app` of the top one. */
  class AppContext<V> {
    const app: App<V>
    /** `ctx.cuttlepool_connection`; None while the attribute is not set. */
    var cuttlepoolConnection: Option<PoolConnection>

    constructor (app: App<V>)
      ensures this.app == app && cuttlepoolConnection == None
    {
      this.app := app;
      cuttlepoolConnection := None;
    }

    /** The cached connection object, if any. */
    function Held(): set<object>
      reads this
    {
      if cuttlepoolConnection.Some? then {cuttlepoolConnection.value} else {}
    }

    /** A connection is cached and has not been closed. */
    predicate HoldsLive()
      reads this, Held()
    {
      cuttlepoolConnection.Some? && cuttlepoolConnection.value.live
    }
  }
}
