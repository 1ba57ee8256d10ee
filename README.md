# laravel-phpredis: connection topology and cache store, in Dafny

This project models the two core classes of `indeyets/laravel-phpredis`:

- `Barbery\Providers\Database` builds its named Redis clients when it is constructed. As written, it always builds one
  `Redis` client per configured server. The per-server clients get defaults for host, port and timeout, and a
  persistent connection, key prefix and database are applied only when set. The constructor also has a branch that
  builds one aggregate `RedisCluster` client, named `default`, from `clusterConfig`. That branch is evidently the
  intended one when `cluster` is truthy, but as written it can never be taken (see "## Findings"). The model keeps
  both the written constructor and the intended one. Its `pipeline` method runs a batch of queued commands in order.
- `Barbery\Extensions\RedisStore` is the cache store. Numeric values are stored as their own text and everything else
  as JSON, under `prefix.key`. Durations such as `"5m"` or `"2h"` are translated to seconds, and `put` floors the
  expiry at one second. `many` decodes one `MGET` reply per requested key. `putMany` queues one `set` per pair in a
  pipelined batch. `flush` is suppressed when the cluster setting is truthy.

Files:

- `wrappers.dfy` holds `Option`.
- `php_array.dfy` models ordered PHP arrays with string keys: lookup, assignment, `unset`, and `Arr::get`/`Arr::pull`.
- `php_value.dfy` models PHP values, `empty()`, string conversion, `is_numeric` and the `(int)` cast.
- `providers.dfy` models `Database.php`.
- `pipeline.dfy` models the keyspace and the ordered batch of `set` commands.
- `extensions.dfy` models `RedisStore.php`.

The connection handles are abstract records. Each one says which address, timeout and options the client was opened
with.

The JSON codec comes in as a pair of functions, `Extensions.Json`. The proofs about reading values back assume
`Extensions.Sound`, which says three things:

- a well-formed non-numeric value decodes back from its encoding;
- its encoding never looks numeric;
- the empty text decodes to null.

The cache sees one keyspace (`Pipeline.Keyspace`). Each entry holds a stored string and the expiry it was written with.

## Model

| member | source | states |
|---|---|---|
| PhpArray.Pull | src/Providers/Database.php:22 | `Arr::pull` returns the element under the key, if any, and the array no longer holds that key |
| PhpArray.Get | src/Providers/Database.php:45-47 | `Arr::get` gives the default when the key is absent and the present element otherwise, even a null one |
| PhpArray.Put | src/Providers/Database.php:87 | `$a[$k] = $v` binds the key, leaves every other key's element alone, appends a new key at the end and keeps an existing key's position |
| PhpArray.PutKeepsUniqueKeys | src/Providers/Database.php:87 | assignment keeps the keys of an array distinct |
| PhpArray.RemoveKeys | src/Providers/Database.php:22 | after the pull, the remaining keys are the old ones minus the pulled key |
| PhpValue.Text | src/Providers/Database.php:42 | PHP's string conversion: an integer gives numeric text, `true` gives numeric text and `false` does not, null gives the empty string, a string is itself, and an array never gives numeric text |
| PhpValue.IsNumericString | src/Extensions/RedisStore.php:21 | text that `is_numeric` accepts is non-empty, ends in a digit and starts with a digit or a sign |
| PhpValue.IntCast | src/Extensions/RedisStore.php:49-56 | the `(int)` cast gives 0 when no digit follows the leading white space and sign, and gives a negative number only for text that starts with `-` after the white space |
| PhpValue.IntCastOfIntToString | src/Extensions/RedisStore.php:49-56 | the `(int)` cast reads an integer's decimal text back as the integer, whatever non-digit follows it |
| PhpValue.IntToStringIsNumeric | src/Extensions/RedisStore.php:21 | an integer's decimal text is numeric to `is_numeric` |
| Providers.AsArray | src/Providers/Database.php:24 | `(array)$x` keeps an array as it is, turns null or a missing value into the empty array, and wraps any other value as the one element of an array |
| Providers.HostOf | src/Providers/Database.php:40 | the host is never empty; it is `127.0.0.1` exactly when the server's `host` is empty, and the configured host otherwise |
| Providers.PortOf | src/Providers/Database.php:41 | the port is never empty; it is `6379` exactly when the server's `port` is empty, and the configured port otherwise |
| Providers.TimeoutOf | src/Providers/Database.php:72 | the timeout is 0 when the server's `timeout` is empty, and the configured timeout otherwise |
| Providers.SeedList | src/Providers/Database.php:34-43 | the seed list has one `host:port` per entry that is not an option key (`prefix`, `failover`), in configuration order |
| Providers.AggregateClient | src/Providers/Database.php:45-55 | exactly one client, named `default` and clustered, seeded from the seed list; read timeout, timeout and persistence are the configured options when present and 0, 0 and false when absent; prefix and failover are set exactly when non-empty, to the configured value |
| Providers.SingleHandle | src/Providers/Database.php:69-85 | a single-node client opens at the host, port and timeout above; it is persistent exactly when `persistent` is set and truthy; the prefix and database are applied exactly when non-empty, with the configured values |
| Providers.SingleClientsShape | src/Providers/Database.php:59-91 | `createSingleClients` gives one single-node client per configured name except `clusterConfig`, under distinct names; for a PHP array they follow configuration order and each is opened from its own entry |
| Providers.Construct | src/Providers/Database.php:20-30 | as written, `cluster` is pulled before it is tested, so every configuration takes the single-node branch over the servers without `cluster`, and none raises a TypeError |
| Providers.IntendedConstruct | src/Providers/Database.php:22-28 | testing the pulled `cluster` instead: without a truthy flag it agrees with the written constructor, and it raises a TypeError exactly when the flag is truthy and `clusterConfig` is not an array |
| Providers.ConstructNames | src/Providers/Database.php:20-30 | the constructor names exactly the entries other than `cluster`, `options` and `clusterConfig`, each bound to a single-node client |
| Providers.ConstructOrder | src/Providers/Database.php:20-30 | for a PHP array, the clients follow configuration order and each is opened from its own entry |
| Providers.ClusterFlagIgnored | src/Providers/Database.php:22-25 | with `cluster => true` and a one-seed `clusterConfig`, the written constructor yields no client, while the intended one yields the `default` cluster client on `127.0.0.1:6379` |
| Providers.IntendedClusterDispatch | src/Providers/Database.php:22-25 | with a truthy `cluster` and an array `clusterConfig`, the intended constructor yields exactly the aggregate client built from `clusterConfig` without its `options`, with those options cast to an array |
| Providers.Database.constructor | src/Providers/Database.php:20-30 | the stored clients are those the written dispatch builds |
| Providers.Database.Intended | src/Providers/Database.php:20-30 | the stored clients are those the intended dispatch builds |
| Providers.Database.CreateAggregateClient | src/Providers/Database.php:32-56 | the loop and the option calls build the aggregate client described above |
| Providers.Database.OpenConnection | src/Providers/Database.php:69-85 | the connect and option calls give the single-node client described above |
| Providers.Database.CreateSingleClients | src/Providers/Database.php:59-91 | the loop builds the single-node clients described above |
| Pipeline.ApplyAllLastWins | src/Providers/Database.php:101-106 | in an executed batch, a key's entry comes from the last command that sets it |
| Pipeline.ApplyAllUntouched | src/Providers/Database.php:101-106 | a key that no command in the batch sets keeps its entry, or stays absent |
| Extensions.TranslateToSeconds | src/Extensions/RedisStore.php:44-58 | a duration without a unit letter is its `(int)` value; with one, that value times the letter's factor; the result is positive exactly when the `(int)` value is, and zero exactly when it is |
| Extensions.PutSeconds | src/Extensions/RedisStore.php:38 | `put`'s expiry is at least one second; it is the translated duration when that is at least 1, and exactly 1 otherwise |
| Extensions.SecondsUnchanged | src/Extensions/RedisStore.php:44-58 | an integer duration is taken as that many seconds |
| Extensions.BareTokenIsSeconds | src/Extensions/RedisStore.php:44-58 | a token that is just an integer is taken as that many seconds |
| Extensions.SuffixedToken | src/Extensions/RedisStore.php:44-58 | an integer followed by `m`/`M` is scaled by 60, by `h`/`H` by 3600, and by any other non-digit (including `s`) is left as seconds |
| Extensions.NonNumericTokenIsZero | src/Extensions/RedisStore.php:44-58 | a token with no digit after its leading white space and sign is 0 seconds |
| Extensions.ScaledExamples | src/Extensions/RedisStore.php:44-53 | `"5m"` is 300 seconds and `"2H"` is 7200 |
| Extensions.SecondsExample | src/Extensions/RedisStore.php:54-56 | `"10s"` is 10 seconds |
| Extensions.NoNumberExample | src/Extensions/RedisStore.php:54-56 | `"abc"` is 0 seconds |
| Extensions.FloorExamples | src/Extensions/RedisStore.php:38 | `put` floors `"0"` and `"-5"` to 1 second |
| Extensions.EncodeMeaning | src/Extensions/RedisStore.php:36 | `put` stores a numeric value as numeric text (a numeric string as itself, an integer as text whose `(int)` cast is the integer) and anything else as its JSON encoding |
| Extensions.DecodeMeaning | src/Extensions/RedisStore.php:21 | `get` returns numeric text as that string, which encodes back to the same text, and JSON-decodes anything else |
| Extensions.CodecRoundTrip | src/Extensions/RedisStore.php:21-36 | decoding what `put` encodes gives the value back, except that an integer comes back as its decimal text |
| Extensions.NumericIdentity | src/Extensions/RedisStore.php:21-36 | an integer is stored as text whose `(int)` cast is the integer |
| Extensions.PutThenGet | src/Extensions/RedisStore.php:17-41 | `get` after `put` returns the value, normalized, and the entry carries `put`'s expiry |
| Extensions.PutKeepsOthers | src/Extensions/RedisStore.php:34-41 | `put` under one key leaves what `get` returns for every other key unchanged |
| Extensions.ReplyAgreesWithGet | src/Extensions/RedisStore.php:77-80 | a missing key's `false` reply decodes to null, the same as `get` returns |
| Extensions.ManyKeys | src/Extensions/RedisStore.php:68-84 | the `many` result has exactly one entry per requested key, and no other entries |
| Extensions.ManyValues | src/Extensions/RedisStore.php:68-84 | each requested key maps to what `get` returns for it |
| Extensions.ManyOrder | src/Extensions/RedisStore.php:68-84 | with distinct keys, `many` lists them in the order they were requested |
| Extensions.SetCommandsDistinct | src/Extensions/RedisStore.php:129-133 | the batch `putMany` queues from a PHP array sets distinct keys |
| Extensions.EncodedCommandsShape | src/Extensions/RedisStore.php:129-133 | the corrected batch has every expiry at least one second, and from a PHP array it sets distinct keys |
| Extensions.PutManyWrites | src/Extensions/RedisStore.php:125-134 | after `putMany`, each pair's prefixed key holds the value's PHP string conversion with the batch expiry |
| Extensions.PutManyKeepsOthers | src/Extensions/RedisStore.php:125-134 | `putMany` leaves every key outside the batch as it was |
| Extensions.PutManyRawBoolean | src/Extensions/RedisStore.php:129-132 | as written, `putMany` of `true` reads back as the string `"1"`, while `put` of `true` reads back as `true` |
| Extensions.PutManyExpiryUnfloored | src/Extensions/RedisStore.php:128 | as written, `putMany` with `"0"` queues an expiry of 0 seconds, while `put` floors it to 1 |
| Extensions.EncodedBatchRoundTrip | src/Extensions/RedisStore.php:125-134 | in the intended batch, each pair reads back as after `put`, with the same stored entry and expiry |
| Extensions.RedisStore.constructor | src/Extensions/RedisStore.php:8 | the store starts with the given prefix, codec and keyspace |
| Extensions.RedisStore.Get | src/Extensions/RedisStore.php:17-23 | the decoded value under `prefix.key`, or null when the key is missing |
| Extensions.RedisStore.Put | src/Extensions/RedisStore.php:34-41 | the new keyspace binds `prefix.key` to the encoded value with the floored expiry, and nothing else changes |
| Extensions.RedisStore.Many | src/Extensions/RedisStore.php:68-84 | the loop over the `MGET` replies returns the `many` result described above |
| Extensions.RedisStore.Forever | src/Extensions/RedisStore.php:95-100 | the new keyspace binds `prefix.key` to the encoded value with no expiry, and nothing else changes |
| Extensions.RedisStore.Flush | src/Extensions/RedisStore.php:109-115 | the keyspace is emptied when the cluster setting is falsy; otherwise it is unchanged |
| Extensions.RedisStore.QueueSets | src/Extensions/RedisStore.php:129-133 | the callback queues one `set` per pair, in array order, with the prefixed key, the raw value and the batch expiry |
| Extensions.RedisStore.Exec | src/Providers/Database.php:101-106 | the batch takes effect command by command, in queue order |
| Extensions.RedisStore.PutMany | src/Extensions/RedisStore.php:125-134 | as written: the keyspace after the batch of raw values with the unfloored expiry |
| Extensions.RedisStore.PutManyEncoded | src/Extensions/RedisStore.php:125-134 | as intended: the keyspace after the batch of encoded values with `put`'s floored expiry |
| Extensions.RedisStore.QueueEncodedSets | src/Extensions/RedisStore.php:129-133 | the corrected callback queues, in array order, the `set` that `put` would issue for each pair |

## Left out

- The network is not modelled. Connecting, `select`, `setOption` and the `Redis`/`RedisCluster` objects become records of what each client was opened with. Connection failures and exceptions are not modelled.
- `CacheServiceProvider` (the service registration) is not part of this model.
- Time passing and key expiry are not modelled. An entry records the expiry it was written with.
- phpredis's handling of a `set` timeout that is not positive is not modelled. The batch records the number as given.
- JSON's own grammar is not modelled. The store relies only on the properties in `Extensions.Sound`. `json_encode` failing (e.g. on invalid UTF-8) is not modelled.
- Floats and objects are not modelled.
- `is_numeric` is modelled for signed decimal integers only. Leading or trailing white space, decimals and exponents are left out.
- The `(int)` cast reads white space, a sign and digits. Exponent forms are not modelled.
- Integers are unbounded. PHP's 64-bit overflow to float is not modelled.
- PHP array keys are modelled as strings. The integer/string key canonicalisation is not modelled.
- `many` takes its keys as a list (`seq<string>`). Non-list key arrays are not modelled, because PHP would look up `$keys[$index]` by position.
- `flush` takes the `database.redis.cluster` setting as a parameter instead of reading the global configuration.
- `putMany` goes through `$this->redis->pipeline`, and the other operations go through `$this->connection()`. The model gives the store one keyspace for both.
- Pipeline atomicity and partial failure are not modelled. The batch is applied in order.
- Laravel's own normalisation of the store prefix is not modelled. The prefix is prepended as given.
- `createSingleClients` ignores its `$options` argument, and so does the model.
- A caller might expect an integer stored with `put` to read back as an integer. The code returns numeric values from `get` as the stored string. The model follows the code, and `Extensions.Normalized` says what comes back.
- Providers.Database.Intended: requires `clusterConfig` to be an array when `cluster` is truthy, because otherwise PHP raises a TypeError.

## Findings

| source | as written | input that shows it | evidently intended | confidence | as-written member | corrected member |
|---|---|---|---|---|---|---|
| src/Providers/Database.php:22-23 | `cluster` is pulled out of `$servers`, and then `$servers['cluster']` is tested, so the cluster branch is unreachable | `['cluster' => true, 'clusterConfig' => ['seed' => []]]` gives no client at all | test the pulled `$cluster`, and build the `default` cluster client | high, not executed | Providers.ClusterFlagIgnored | Providers.IntendedConstruct |
| src/Extensions/RedisStore.php:129-132 | `putMany` stores each value raw, not numeric-or-JSON as `put` does | `putMany(['k' => true], 60)` stores `"1"`, so `get('k')` returns `"1"` instead of `true` | encode each value as `put` does | high, not executed | Extensions.PutManyRawBoolean | Extensions.EncodedCommands |
| src/Extensions/RedisStore.php:128 | `putMany` passes the translated expiry on without `put`'s `max(1, …)` | `putMany($values, "0")` queues an expiry of 0 seconds | floor the expiry at one second, as `put` does | medium, not executed | Extensions.PutManyExpiryUnfloored | Extensions.EncodedCommands |

`Providers.IntendedConstruct` is what `Providers.IntendedClusterDispatch` and `Providers.Database.Intended` are proved
against. `Extensions.EncodedCommands` is what `Extensions.EncodedCommandsShape`, `Extensions.EncodedBatchRoundTrip` and
`Extensions.RedisStore.PutManyEncoded` are proved against.
