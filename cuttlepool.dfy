/**
 * The parts of the external pool library that the extension touches,
 * reduced to object identity and the arguments a pool was made with.
 * Capacity, overflow, timeouts, waiting and health checks belong to the
 * library and are not modelled.
 */
module CuttlePool {

  /** A `PoolConnection`: `live` stands for `_connection is not None`. */
  class PoolConnection {
    var live: bool

    /** The pool hands out an open connection. */
    constructor ()
      ensures live
    {
      live := true;
    }

    /** Returning the connection to its pool leaves the proxy closed. */
    method Close()
      modifies this
      ensures !live
    {
      live := false;
    }
  }

  /**
   * A `CuttlePool`, known by identity, by the keyword arguments it was made
   * with, and by the connections it has handed out so far. `issued` is a
   * record kept by the model, so that a caller's contract can say how many
   * connections it took from the pool.
   */
  class Pool<V> {
    const args: map<string, V>
    var issued: seq<PoolConnection>

    constructor (args: map<string, V>)
      ensures this.args == args && issued == []
    {
      this.args := args;
      issued := [];
    }

    /** `get_connection()`: a new, open connection, recorded as handed out. */
    method GetConnection() returns (c: PoolConnection)
      modifies this
      ensures fresh(c) && c.live
      ensures issued == old(issued) + [c]
    {
      c := new PoolConnection();
      issued := issued + [c];
    }
  }
}
