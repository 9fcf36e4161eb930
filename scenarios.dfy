/**
 * Client code that shows what the contracts of the extension let a caller
 * conclude. Most methods follow one of the repository's tests; the last
 * one, about teardown, is the model's own.
 */
module Scenarios {
  import opened Wrappers
  import opened PoolConfig
  import opened CuttlePool
  import opened Flask
  import opened Extension

  /** The application of the tests: user, password and host under the prefix. */
  method TestApp(user: string, password: string, host: string) returns (app: App<string>)
    ensures fresh(app) && app.cuttlepool == None
    ensures app.config == [("CUTTLEPOOL_USER", user), ("CUTTLEPOOL_PASSWORD", password), ("CUTTLEPOOL_HOST", host)]
  {
    app := new App([("CUTTLEPOOL_USER", user), ("CUTTLEPOOL_PASSWORD", password), ("CUTTLEPOOL_HOST", host)]);
  }

  /** Two reads of `connection` in one context give the same connection while it stays healthy. */
  method SameConnectionInOneContext() {
    var app := TestApp("paul_hollywood", "bread_is_the_best", "an_ip_address_in_england");
    var ext := new FlaskCuttlePool<string>("1", "0", "None", Some(app), map[]);
    var ctx := new AppContext(app);
    var c1 := ext.Connection(Some(ctx), true);
    var c2 := ext.Connection(Some(ctx), true);
    assert c1 == c2;
    assert |app.Issued()| == 1;
  }

  /** Nested contexts of one application each get their own connection; the outer one keeps its own. */
  method OwnConnectionPerContext() {
    var app := TestApp("paul_hollywood", "bread_is_the_best", "an_ip_address_in_england");
    var ext := new FlaskCuttlePool<string>("1", "0", "None", Some(app), map[]);
    var outer := new AppContext(app);
    var c1 := ext.Connection(Some(outer), true);
    var inner := new AppContext(app);
    var c2 := ext.Connection(Some(inner), true);
    assert c1 != c2;
    assert outer.cuttlepoolConnection == c1 && c1.value.live;
    var c3 := ext.Connection(Some(outer), true);
    assert c3 == c1;
  }

  /** The pool is made once per application (what the pool test claims, checked against `_get_pool`). */
  method OnePoolPerApp() {
    var app := TestApp("paul_hollywood", "bread_is_the_best", "an_ip_address_in_england");
    var app2 := TestApp("marry_berry", "cake_and_margaritas", "another_ip_address_in_england");
    var ext := new FlaskCuttlePool<string>("1", "0", "None", Some(app), map[]);
    var ctx := new AppContext(app);
    var p1 := ext.GetPool(Some(ctx));
    var p2 := ext.GetPool(Some(ctx));
    assert p1 == p2;
    var ctx2 := new AppContext(app2);
    var p3 := ext.GetPool(Some(ctx2));
    assert p3.value != p1.value;
  }

  /** Outside any context the default application is used; without one the lookup fails. */
  method DefaultApplication() {
    var app := TestApp("paul_hollywood", "bread_is_the_best", "an_ip_address_in_england");
    var ext := new FlaskCuttlePool<string>("1", "0", "None", Some(app), map[]);
    assert ext.GetApp(None) == Ok(app);
    var bare := new FlaskCuttlePool<string>("1", "0", "None", None, map[]);
    assert bare.GetApp(None) == Err(NoApplicationFound);
    var none := bare.Connection(None, true);
    assert none == None;
  }

  /** After teardown the cached connection is closed, and a later read acquires a new one (no test covers this). */
  method TeardownThenReacquire() {
    var app := TestApp("paul_hollywood", "bread_is_the_best", "an_ip_address_in_england");
    var ext := new FlaskCuttlePool<string>("1", "0", "None", Some(app), map[]);
    var ctx := new AppContext(app);
    var c1 := ext.Connection(Some(ctx), true);
    ext.Teardown(Some(ctx));
    assert !c1.value.live;
    var c2 := ext.Connection(Some(ctx), true);
    assert c2 != c1 && c2.value.live;
  }
}
