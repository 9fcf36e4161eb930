# Flask-CuttlePool, modelled in Dafny

Flask-CuttlePool binds the CuttlePool connection-pool library to Flask. The
`FlaskCuttlePool` extension object does three things of its own, and this
project models all three:

1. **Keyword arguments for the pool.** The constructor stores the driver's
   keyword arguments with `capacity`, `overflow` and `timeout` forced to its
   explicit parameters. When a pool is made, a copy of them is updated with
   every `app.config` entry whose key starts with the case-sensitive prefix
   `CUTTLEPOOL_`: the prefix is stripped and the rest lower-cased. Module
   `PoolConfig` (config.dfy) states this as pure functions. The lemmas there
   say which keywords the pool gets, which value wins, and that unprefixed
   keys are ignored.
2. **One pool per application.** `_get_app` picks the application of the
   current context, else the default one, else fails. `_get_pool` is a
   get-or-create on that application's `extensions['cuttlepool']` slot.
   See `Extension.FlaskCuttlePool` (extension.dfy).
3. **One connection per context.** The `connection` property caches a pool
   connection on the top application context. It re-acquires when the cached
   one is missing or closed, keeps it while the pool's ping says it is
   healthy, and otherwise closes it and acquires anew. `teardown` closes the
   cached connection.

Flask state is explicit. An `App` (flask.dfy) holds `config`, a sequence of
pairs in dict iteration order, and its `cuttlepool` slot. An `AppContext`
holds the optional `cuttlepool_connection` attribute. The ambient
`stack.top` is a parameter `top: Option<AppContext>`. `current_app` is
`top`'s `app`, as in Flask, where the current application is the top
context's. Config values are a type parameter `V`: the extension never
looks at them.

The library is reduced to object identity (cuttlepool.dfy). A `Pool` records
the keyword arguments it was made with, and `issued`, the connections it has
handed out so far. `issued` is the model's own record: it lets the contracts
say how many connections a call took from the pool. `Pool.GetConnection`
hands out a fresh, open `PoolConnection` and appends it to `issued`. `PoolConnection.Close` leaves it closed
(`_connection is None`, written `!live`). That last point is an assumption
about the library, and the recursive call in the `connection` property
relies on it: after the close, the re-entered property takes its
"absent or closed" branch. The model makes it a real recursive call. Its
termination measure is 1 while the cached connection is open and 0 after.

The pool's `ping` is the parameter `pingOk` of `Connection`.

scenarios.dfy is client code; Dafny proves its assertions from the
contracts alone:
- `SameConnectionInOneContext` follows test_connection_app_ctx: the same
  connection twice in one context, and only one taken from the pool.
- `OwnConnectionPerContext` follows test_connection_multiple_app_ctx.
- `OnePoolPerApp` asserts what test_get_pool claims, against `_get_pool`
  (the test itself calls a `get_pool()` the source does not define).
- `DefaultApplication` follows test_get_app_no_init and
  test_get_app_no_app.
- `TeardownThenReacquire` is the model's own scenario; no test calls
  `teardown`.

`_get_app` raises `RuntimeError('No application found.')`
(flask_cuttlepool.py:102); the model returns `Err(NoApplicationFound)`.

## Model

| member | source | states |
|---|---|---|
| `PoolConfig.StoredKwargs` | flask_cuttlepool.py:50-57 | the stored kwargs have exactly the given keys plus `capacity`, `overflow`, `timeout`; those three map to the explicit parameters, overriding same-named kwargs, and every other kwarg keeps its value |
| `Extension.FlaskCuttlePool.constructor` | flask_cuttlepool.py:50-57 | `_app` is the given default app and `_cuttlepool_kwargs` is `StoredKwargs` of the arguments |
| `PoolConfig.Lower` | flask_cuttlepool.py:125 | `.lower()` on ASCII: same length, no upper-case letter left, an upper-case letter becomes its lower-case one, every other character is kept |
| `PoolConfig.HasPrefix` | flask_cuttlepool.py:127 | `k.startswith('CUTTLEPOOL_')`, case-sensitive: true exactly when the key is the prefix followed by some rest |
| `PoolConfig.ArgName` | flask_cuttlepool.py:125 | `k[len(prefix):].lower()`: as long as the key minus the prefix, each character the lower-cased character of the key after the prefix |
| `PoolConfig.ConfigOverrides` | flask_cuttlepool.py:124-127 | the dict comprehension over the config items, read in order; it has no contract of its own, and `OverridesKeys`, `OverridesLastWins` and `OverridesAppend` characterise it |
| `PoolConfig.PoolArguments` | flask_cuttlepool.py:120-127 | copy of the stored kwargs updated by the comprehension: its keywords are the stored ones plus the configured ones; values are given by `ConfigWins` and `StoredKept` |
| `PoolConfig.OverridesKeys` | flask_cuttlepool.py:124-127 | a keyword comes from the config if and only if some config key has the `CUTTLEPOOL_` prefix and lower-cased suffix equal to it |
| `PoolConfig.OverridesLastWins` | flask_cuttlepool.py:124-127 | a configured keyword gets the value of the last config entry that names it (dict-comprehension order) |
| `PoolConfig.OverridesAppend` | flask_cuttlepool.py:124-127 | the config read in two parts gives the first part's keywords updated by the second's |
| `PoolConfig.PoolArgumentsKeys` | flask_cuttlepool.py:119-127 | the pool's keywords are exactly the stored kwargs' plus those named by prefixed config keys |
| `PoolConfig.ConfigWins` | flask_cuttlepool.py:120-127 | on a name clash the app-config value overrides the stored kwarg |
| `PoolConfig.StoredKept` | flask_cuttlepool.py:120-127 | a stored kwarg that no prefixed config key names reaches the pool with its stored value |
| `PoolConfig.UnprefixedIgnored` | flask_cuttlepool.py:124-127 | inserting a config entry without the prefix anywhere changes nothing |
| `PoolConfig.NothingConfigured` | flask_cuttlepool.py:124-127 | with no prefixed config key the pool's arguments equal the stored kwargs exactly |
| `PoolConfig.RonsHouseExample` | flask_cuttlepool.py:77-82 | constructor `database='rons_house'` overridden by `CUTTLEPOOL_DATABASE='steakhouse'`; the stored kwargs still say `rons_house` |
| `PoolConfig.TestConfigExample` | tests/test_flask_cuttlepool.py:182-193 | the test config's `CUTTLEPOOL_USER`, `_PASSWORD`, `_HOST` reach the pool as `user`, `password`, `host`; `capacity` stays as stored |
| `Extension.FlaskCuttlePool.GetApp` | flask_cuttlepool.py:91-102 | fails exactly when there is neither a current app nor a default app; otherwise the current app if there is one, else the default |
| `Extension.FlaskCuttlePool.MakePool` | flask_cuttlepool.py:117-129 | fails when no app is found; otherwise a fresh pool whose arguments are `PoolArguments(stored kwargs, app config)` and which has handed out nothing; writes nothing, so the stored kwargs are unchanged |
| `Extension.FlaskCuttlePool.GetPool` | flask_cuttlepool.py:104-115 | fails when no app is found; a pool already in the app's slot is returned as is; otherwise a fresh pool made from the app config is stored and returned; only that app's slot is written, its config is kept, and no connection is taken |
| `Extension.FlaskCuttlePool.GetConnection` | flask_cuttlepool.py:135-142 | fails when no app is found; otherwise a fresh open connection, which is the one connection added to the app pool's record; the app's config is kept; an existing pool is kept, and a missing one is created fresh from `PoolArguments(stored kwargs, app config)` |
| `Extension.FlaskCuttlePool.Teardown` | flask_cuttlepool.py:144-152 | closes the top context's cached connection if one is cached; writes nothing else, and nothing at all when none is cached |
| `Extension.FlaskCuttlePool.Connection` | flask_cuttlepool.py:154-174 | none without a context; with one, the result is the cached connection and is open; absent or closed: a fresh one; open and ping healthy: the same one; open and ping failed: the old one closed and a fresh one cached; the pool hands out exactly one connection on the absent, closed and ping-failed paths and none on the healthy path; the app's config is kept; an existing pool is kept, and a missing one is created fresh from `PoolArguments(stored kwargs, app config)` |
| `CuttlePool.Pool.constructor` | flask_cuttlepool.py:129 | a pool records the keyword arguments it is made with and has handed out nothing |
| `CuttlePool.Pool.GetConnection` | flask_cuttlepool.py:142 | assumed of the library: a fresh, open connection, added to the pool's record of handed-out connections |
| `CuttlePool.PoolConnection.Close` | flask_cuttlepool.py:152 | assumed of the library: after `close()` the connection is closed |
| `Scenarios.TestApp` | tests/test_flask_cuttlepool.py:49-57 | a new app whose config is the three prefixed test entries, with no pool yet; Flask's default config and `TESTING` are left out, which is harmless because `UnprefixedIgnored` shows unprefixed keys change nothing |

## Left out

- Lower: only ASCII letters are lowered; Python's `str.lower` also lowers other Unicode letters, and the model does not capture that.
- The CuttlePool library: capacity, overflow and timeout enforcement, waiting, `ping`, normalisation, and the errors its constructor or `get_connection` may raise (for instance a config key that becomes a keyword the pool's constructor rejects). Only identity and arguments are kept.
- Connection: the pool's `ping` is the boolean parameter `pingOk`, not a function of the connection.
- The driver's `connect` function (flask_cuttlepool.py:50, 52, 129): it is only forwarded to the pool, so it is not modelled.
- The default values `_CAPACITY`, `_OVERFLOW`, `_TIMEOUT` (flask_cuttlepool.py:19-24) come from the library; the constructor takes all three explicitly.
- `_app` and `_cuttlepool_kwargs` are constant fields: the source sets them only in `__init__`. The in-place `update` of the fresh `**kwargs` dict there is the map update in the constructor, and no alias of that dict exists.
- `init_app` and its call from the constructor (flask_cuttlepool.py:61-89): they only register `teardown` with Flask.
- The `RLock` (flask_cuttlepool.py:59, 108): it serialises threads; the model is sequential.
- `cursor()` (flask_cuttlepool.py:131-133): delegation to the driver.
- The creation of an empty `app.extensions` dict (flask_cuttlepool.py:109-110) is folded into the optional `cuttlepool` slot; Flask's other extension entries are not modelled.
- Teardown: its `exception` argument is ignored by the source and is not a parameter.
- Flask's context stack: `stack.top` is a parameter, and `current_app` is taken to be the top context's app. The pre-0.9 fallback to the request-context stack (flask_cuttlepool.py:29-32) is not modelled separately.
- Python passes a keyword named `capacity`, `overflow` or `timeout` to the named parameter, so `**kwargs` never holds one; the model allows it and shows the explicit value wins.
- The config sequence stands for the dict's items in iteration order, so its keys are meant to be distinct. A sequence that repeats a key matches no Python dict: after a key is re-assigned, Python keeps it at its first position. The model reads such a sequence plainly from left to right. This differs from Python when a second key lower-cases to the same keyword as the repeated one.
- Config keys are strings in the model; a non-string key in `app.config` would make `k.startswith` raise `AttributeError` (flask_cuttlepool.py:127), and that error path is not modelled.
- The record of handed-out connections (`issued`) counts acquisitions only; giving a connection back to the pool is the library's business and is not recorded.
- Tests that disagree with the source are not properties of the model: tests/test_flask_cuttlepool.py:159-167 and :179 call a `get_pool()` the source does not define; :185 passes an app to `_make_pool`, which takes none; :170-179 expect a `RuntimeError` although the current app is found; :125 reads an `_apps` attribute the source never sets.
