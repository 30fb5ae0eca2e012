# FNStore: a Dafny model of the Finam store core

`FNStore` is the backtrader store for the Finam broker. It is a process-wide
singleton. At construction it registers one FinamPy session per configured
trading account, and it picks the first registered session as the default
provider. It fetches the securities directory through that provider. It keeps
a notification queue that the framework drains. It also converts between a
data name `"BOARD.SYMBOL"` and its (board, symbol) pair.

This project models that core and proves its properties:

- `pystrings.dfy` (module `PyStrings`) models Python's `str.split` and
  `str.join` for a one-character separator. `Split` is proved to be the only
  non-empty list of separator-free pieces whose join is the input.
- `tickers.dfy` (module `Tickers`) models the directory search: the first
  record that matches, or None on a miss. It also models `get_symbol_info`,
  `board_symbol_to_data_name` and `data_name_to_board_symbol`, with the round
  trip in both directions.
- `providers.dfy` (module `Providers`) models the provider registry as an
  insertion-ordered dictionary. It covers the config keys that may be missing,
  the `'default'` name, a later duplicate that overwrites in place, and the
  default provider.
- `store.dfy` (module `Store`) has the `FNStore` class. Its notification
  deque is a `seq` field with `None` as the drain sentinel. Its construction
  loop is a static method `Create`. It also has the `MetaSingleton` class, whose
  `singleton` field is the class-level `_singleton` slot.
- `wrappers.dfy` holds `Option`, Python's "value or None".

There are no I/O, clocks or network calls in the model:

- A FinamPy connection is the value `Connection(accessToken)`.
- The `get_securities()` fetch is a function parameter
  `fetch: Connection -> seq<Security>`. It is applied to the default connection.
- `get_symbol_info` and `data_name_to_board_symbol` take the directory
  (`self.symbols.securities`) as an explicit sequence argument.
- Python exceptions are `Result.Failure` values:
  - `KeyError('access_token')` and `KeyError('client_id')` become `MissingKey`;
  - the `IndexError` of an empty provider list becomes `NoProviders`;
  - `StopIteration` in a lookup becomes `None`.

The docstring of the class says that a provider name must be unique
(FNStore.py:27). The code does not check this: a later config with the same
name overwrites the earlier entry, which keeps its position. The model follows
the code (`RegisteredLastWins`, `RegisteredOrder`).

## Model

| member | source | states |
|---|---|---|
| `PyStrings.FirstIndexOf` | FNStore.py:100 | the first position of the separator, or None exactly when the string has none |
| `PyStrings.Split` | FNStore.py:100 | `split('.')` yields at least one piece, no piece holds a dot, and the pieces joined with dots give back the input |
| `PyStrings.Join` | FNStore.py:103 | `'.'.join(...)`: "" for no pieces; otherwise the text starts with the first piece, followed by a dot when there is a second piece |
| `PyStrings.SplitJoin` | FNStore.py:100-103 | splitting the join of dot-free pieces gives back those pieces, so `Split` and `Join` are inverse |
| `PyStrings.SplitCount` | FNStore.py:100-101 | `len(symbol_parts) >= 2` holds exactly when the name contains a dot |
| `PyStrings.SplitAtFirst` | FNStore.py:100-103 | with the first dot at i, piece 0 is the text before i and the remaining pieces rejoin to the text after i |
| `PyStrings.FirstOccurrenceAfter` | FNStore.py:100 | after a dot-free prefix, the first dot is the one right after the prefix |
| `Tickers.FirstMatch` | FNStore.py:94 | the first-match generator: the position of the first accepted record with no earlier one accepted; None exactly when no record is accepted |
| `Tickers.GetSymbolInfo` | FNStore.py:86-97 | the first record with both this board and this code; None exactly when no record has both; never an error |
| `Tickers.BoardSymbolToDataName` | FNStore.py:112-120 | the name is the board, then one dot, then the symbol |
| `Tickers.DataNameToBoardSymbol` | FNStore.py:99-110 | dotted name: board is the text before the first dot, symbol the rest with its dots kept. Bare ticker: symbol is the input; board is that of the first record with that code, or None exactly when no record has it |
| `Tickers.DottedNameIgnoresDirectory` | FNStore.py:100-103 | a dotted name parses the same against any directory |
| `Tickers.RoundTrip` | FNStore.py:99-120 | for a dot-free board, parsing the formatted name gives back (board, symbol), even when the symbol has dots |
| `Tickers.Reassemble` | FNStore.py:99-120 | for a dotted name, the parsed board is dot-free and formatting the parsed pair gives back the name |
| `Providers.NameOf` | FNStore.py:60 | a config is registered under its `provider_name`, or under `'default'` when that key is absent |
| `Providers.Open` | FNStore.py:61 | the right-hand side of line 61: a missing `access_token` raises first, before `FinamPy(...)` is called; then a missing `client_id` raises; otherwise the pair (connection opened with the token, client id) |
| `Providers.Assign` | FNStore.py:61 | dict item assignment: keeps keys distinct and in step with the entries; the name maps to the new provider and other keys are untouched; an existing key keeps its position; a new key goes last |
| `Providers.Registered` | FNStore.py:58-61 | the loop over the configs yields a well-formed insertion-ordered registry or the first KeyError |
| `Providers.RegisteredStep` | FNStore.py:59-61 | a successful loop is the loop over all configs but the last, followed by the last config's assignment |
| `Providers.RegisteredKeepsFailure` | FNStore.py:59-61 | an error raised on some config aborts the whole loop with that error |
| `Providers.RegisteredError` | FNStore.py:59-61 | the loop fails with the error of the first config lacking `access_token` (checked first) or `client_id` |
| `Providers.RegisteredSucceeds` | FNStore.py:59-61 | the loop succeeds when every config has both keys |
| `Providers.RegisteredKeys` | FNStore.py:60-61 | the registry's keys are exactly the configs' `provider_name`s, with `'default'` for a config without one |
| `Providers.RegisteredLastWins` | FNStore.py:61 | a name given several times holds the connection and client id of its last config |
| `Providers.RegisteredOrder` | FNStore.py:58-61 | keys are in order of first appearance: for any two keys, some config names the earlier key before any config names the later one |
| `Providers.FirstAppearances` | FNStore.py:58-61 | the distinct names of a list in order of first appearance: no name appears twice, and a name is in it exactly when it is in the list |
| `Providers.RegisteredNames` | FNStore.py:58-61 | the registry's key order is the order in which the config names first appear |
| `Providers.AppearsBefore` | FNStore.py:58-61 | for two names in order of first appearance, some position holds the earlier name before the later one first appears |
| `Providers.RegisteredFirstName` | FNStore.py:59-62 | for a non-empty list, the first key is the first config's name |
| `Providers.Setup` | FNStore.py:59-62 | construction's registry: the loop's error if it raised one; `NoProviders` (the `IndexError` of `[0]`) if the loop produced an empty registry; otherwise the loop's non-empty, well-formed registry |
| `Providers.DefaultConnection` | FNStore.py:62 | `list(self.providers.values())[0][0]`: a registered connection, namely that of the first key in insertion order |
| `Providers.SetupFails` | FNStore.py:59-62 | construction fails exactly when the list is empty (then with `NoProviders`) or some config lacks a key |
| `Providers.DefaultIsLastOfFirstName` | FNStore.py:62 | the default provider is the connection of the last config that carries the first config's name |
| `Store.Unwrapped` | FNStore.py:72-77 | the notifications held by a sentinel-free deque, position by position |
| `Store.FNStore.constructor` | FNStore.py:62-63 | the default provider is the first key's connection, and the directory is fetched through it |
| `Store.FNStore.Create` | FNStore.py:53-63 | construction: on a failing config list, that error; otherwise a fresh store whose registry is the loop's, whose default is the first key's connection, whose directory is fetched through it, and whose queue is empty |
| `Store.FNStore.PutNotification` | FNStore.py:71-72 | appends `(msg, args, kwargs)` at the back of the queue and changes nothing else |
| `Store.FNStore.GetNotifications` | FNStore.py:74-77 | returns every pending notification in put order and leaves the queue empty; the sentinel never escapes |
| `Store.MetaSingleton.constructor` | FNStore.py:11-14 | a newly defined class starts with no instance |
| `Store.MetaSingleton.Call` | FNStore.py:16-20 | the first successful construction is stored and returned; later calls return that instance, still a fully built store, and ignore their arguments; a failed construction stores nothing |
| `Store.ConstructTwice` | FNStore.py:16-20 | two constructions in a row return the same store, built from the first call's configs |
| `Store.DrainTwice` | FNStore.py:71-77 | after putting "a" and then "b", one drain returns both in that order with empty args and kwargs, and a second drain returns nothing |

## Left out

- `stop` and its `close_subscriptions_thread()` calls: these are calls into the external FinamPy client.
- `start`: its body is a no-op; the bar subscription is commented out in the source.
- `getdata` and `getbroker`: they pass through to classes injected from outside and have no logic of their own.
- `new_bars`: an unused list.
- The `print` of a miss in `get_symbol_info`: a console side effect only. The miss shows as the `None` result.
- The backtrader `MetaParams` parameter machinery and the `providers` keyword override (lines 55-56): the provider list is a plain argument of `Create` and `Call`.
- Failures raised inside FinamPy, when a session cannot be opened or `get_securities()` fails on the network: the opened connection and the fetched directory are given values, so the model has no such errors.
- Connection identity. Two FinamPy objects opened with the same token are different objects in Python. Here they are equal values.
- `Tickers.DataNameToBoardSymbol` takes `dataname` as a string. Python would also accept other objects with a `split` method.
- `Tickers.GetSymbolInfo` takes the board as a string. In Python a `None` board, as returned for an unresolved bare ticker, can be passed in; the lookup then misses and prints `None.SYMBOL`. The model does not cover that call.
- `Tickers.BoardSymbolToDataName` takes the board as a string. Python formats a `None` board (as returned for an unresolved bare ticker) as `"None.SYMBOL"`, and the model does not cover that.
- `Providers.NameOf` takes `provider_name` to be a string whenever the key is present.
- `Store.Notification` keeps `kwargs` as a map, so the call order of Python's `**kwargs` dict is not modelled; only its names and values are.
- `PyStrings.Split` models `str.split` only for a one-character separator, which is all the store uses.
