/**
 * `Barbery\Extensions\RedisStore`: the cache store over one connection's
 * keyspace. Values are written as their own text when numeric and as JSON
 * otherwise, under `prefix + key`; durations such as "5m" are translated to
 * seconds; `putMany` goes through a pipelined batch of `set` commands.
 */
module Extensions {
  import opened Wrappers
  import opened PhpArray
  import opened PhpValue
  import opened Pipeline

  /** The `$time` argument: an integer, or a token such as "5m" or "2h". */
  datatype Duration = Seconds(n: int) | Token(s: string)

  /** The string `substr` sees: an integer is converted to its decimal text. */
  function DurationText(time: Duration): string
  {
    match time
    case Seconds(n) => IntToString(n)
    case Token(s) => s
  }

  /** `(int)$time`. */
  function DurationInt(time: Duration): int
  {
    match time
    case Seconds(n) => n
    case Token(s) => IntCast(s)
  }

  /** `strtolower` on one character (ASCII letters only). */
  function Lower(c: char): char
  {
    if 'A' <= c <= 'Z' then (c as int + 32) as char else c
  }

  /** `strtolower(substr($time, -1))`: the lowered last character, or "" for an empty token. */
  function Unit(time: Duration): string
  {
    var text := DurationText(time);
    if text == [] then [] else [Lower(text[|text| - 1])]
  }

  /**
   * `translateToSeconds`: the number `(int)` reads from the duration, scaled
   * by the factor its last character names; it keeps the number's sign.
   */
  function TranslateToSeconds(time: Duration): (seconds: int)
    ensures Unit(time) == [] ==> seconds == DurationInt(time)
    ensures Unit(time) != [] ==>
      seconds == DurationInt(time) * UnitFactor(DurationText(time)[|DurationText(time)| - 1])
    ensures seconds > 0 <==> DurationInt(time) > 0
    ensures seconds == 0 <==> DurationInt(time) == 0
  {
    var unit := Unit(time);
    if unit == "m" then DurationInt(time) * 60
    else if unit == "h" then DurationInt(time) * 3600
    else DurationInt(time)
  }

  /** The expiry `put` writes with: the translated duration, floored at one second. */
  function PutSeconds(time: Duration): (seconds: int)
    ensures seconds >= 1
    ensures TranslateToSeconds(time) >= 1 ==> seconds == TranslateToSeconds(time)
    ensures TranslateToSeconds(time) < 1 ==> seconds == 1
  {
    if TranslateToSeconds(time) < 1 then 1 else TranslateToSeconds(time)
  }

  /** The factor a unit letter stands for. */
  function UnitFactor(u: char): int
  {
    if Lower(u) == 'm' then 60 else if Lower(u) == 'h' then 3600 else 1
  }

  lemma LastCharOfIntToString(n: int)
    ensures DurationText(Seconds(n)) != []
    ensures IsDigit(IntToString(n)[|IntToString(n)| - 1])
  {
    var m: nat := if n < 0 then -n else n;
    assert IntToString(n)[|IntToString(n)| - 1] == NatToString(m)[|NatToString(m)| - 1];
  }

  /** An integer duration is taken as that many seconds. */
  lemma {:induction false} SecondsUnchanged(n: int)
    ensures TranslateToSeconds(Seconds(n)) == n
  {
    LastCharOfIntToString(n);
  }

  /** A bare numeric token is taken as that many seconds. */
  lemma {:induction false} BareTokenIsSeconds(n: int)
    ensures TranslateToSeconds(Token(IntToString(n))) == n
  {
    LastCharOfIntToString(n);
    IntCastOfIntToString(n, []);
    assert IntToString(n) + [] == IntToString(n);
  }

  /**
   * A number followed by a unit letter: `m`/`M` scales by 60, `h`/`H` by
   * 3600, and any other non-digit (`s` among them) leaves seconds.
   */
  lemma {:induction false} SuffixedToken(n: int, u: char)
    requires !IsDigit(u)
    ensures TranslateToSeconds(Token(IntToString(n) + [u])) == n * UnitFactor(u)
  {
    IntCastOfIntToString(n, [u]);
    var text := IntToString(n) + [u];
    assert text[|text| - 1] == u;
  }

  /**
   * A token in which no digit follows the leading white space and the
   * optional sign is zero seconds, whatever its unit.
   */
  lemma NonNumericTokenIsZero(s: string)
    requires DigitRun(Unsigned(TrimStart(s))) == []
    ensures TranslateToSeconds(Token(s)) == 0
  {
  }

  /** Worked examples of unit translation: minutes and hours. */
  lemma ScaledExamples()
    ensures TranslateToSeconds(Token("5m")) == 300
    ensures TranslateToSeconds(Token("2H")) == 7200
  {
    assert IntToString(5) == "5";
    SuffixedToken(5, 'm');
    assert IntToString(5) + ['m'] == "5m";
    assert IntToString(2) == "2";
    SuffixedToken(2, 'H');
    assert IntToString(2) + ['H'] == "2H";
  }

  /** Worked example: a seconds suffix leaves the number as it is. */
  lemma SecondsExample()
    ensures TranslateToSeconds(Token("10s")) == 10
  {
    assert IntToString(10) == "10";
    SuffixedToken(10, 's');
    assert IntToString(10) + ['s'] == "10s";
  }

  /** Worked example: a token with no number is zero seconds. */
  lemma NoNumberExample()
    ensures TranslateToSeconds(Token("abc")) == 0
  {
    TrimStartOfNonSpace("abc");
    NonNumericTokenIsZero("abc");
  }

  /** Worked examples of the floor `put` applies. */
  lemma FloorExamples()
    ensures PutSeconds(Token("0")) == 1
    ensures PutSeconds(Token("-5")) == 1
  {
    assert IntToString(0) == "0";
    BareTokenIsSeconds(0);
    assert IntToString(-5) == "-5";
    BareTokenIsSeconds(-5);
  }

  // ---------------------------------------------------------------------
  // Value encoding

  /** The JSON codec the store calls: `json_encode` and `json_decode($raw, true)`. */
  datatype Json = Json(encode: Value -> string, decode: string -> Value)

  /** Arrays with distinct keys at every level: the values a PHP program can hold. */
  ghost predicate WellFormed(v: Value)
    decreases v
  {
    match v
    case Arr(entries) =>
      UniqueKeys(entries) && forall i :: 0 <= i < |entries| ==> WellFormed(entries[i].1)
    case _ => true
  }

  /**
   * What the store relies on from JSON: a non-numeric value comes back from
   * its encoding, its encoding never looks numeric (it is `null`, `true`,
   * `false`, a quoted string, an array or an object), and the empty text
   * decodes to null.
   */
  ghost predicate Sound(json: Json)
  {
    && (forall v :: WellFormed(v) && !IsNumeric(v) ==> json.decode(json.encode(v)) == v)
    && (forall v :: !IsNumeric(v) ==> !IsNumericString(json.encode(v)))
    && json.decode("") == Null
  }

  /**
   * What `put` and `forever` store: numeric values as their own numeric text
   * (an integer as text the `(int)` cast reads back), anything else as JSON.
   */
  function Encode(json: Json, v: Value): string
  {
    if IsNumeric(v) then Text(v) else json.encode(v)
  }

  /**
   * Numeric values are stored as numeric text (a string as itself, an integer
   * as text the `(int)` cast reads back); anything else is stored as JSON.
   */
  lemma EncodeMeaning(json: Json, v: Value)
    ensures IsNumeric(v) ==> IsNumericString(Encode(json, v))
    ensures v.Int? ==> IntCast(Encode(json, v)) == v.i
    ensures v.Str? && IsNumeric(v) ==> Encode(json, v) == v.s
    ensures !IsNumeric(v) ==> Encode(json, v) == json.encode(v)
  {
    if v.Int? {
      IntCastOfIntToString(v.i, []);
      assert IntToString(v.i) + [] == IntToString(v.i);
    }
  }

  /** What `get` returns for a stored string: numeric text as the string itself, anything else JSON-decoded. */
  function Decode(json: Json, raw: string): Value
  {
    if IsNumericString(raw) then Str(raw) else json.decode(raw)
  }

  /** Numeric text reads back as a numeric string that encodes to the same text. */
  lemma DecodeMeaning(json: Json, raw: string)
    ensures IsNumericString(raw) ==> Decode(json, raw) == Str(raw) && IsNumeric(Decode(json, raw))
    ensures IsNumericString(raw) ==> Encode(json, Decode(json, raw)) == raw
    ensures !IsNumericString(raw) ==> Decode(json, raw) == json.decode(raw)
  {
  }

  /** A value as it reads back: integers come back as their decimal text. */
  function Normalized(v: Value): Value
  {
    if v.Int? then Str(IntToString(v.i)) else v
  }

  /**
   * Encoding then decoding gives the value back, except that an integer
   * comes back as its decimal text.
   */
  lemma CodecRoundTrip(json: Json, v: Value)
    requires Sound(json) && WellFormed(v)
    ensures Decode(json, Encode(json, v)) == Normalized(v)
  {
    if v.Int? {
      IntToStringIsNumeric(v.i);
    }
  }

  /** An integer is stored as text whose `(int)` cast is the integer again. */
  lemma NumericIdentity(json: Json, n: int)
    ensures Decode(json, Encode(json, Int(n))) == Str(IntToString(n))
    ensures IntCast(Decode(json, Encode(json, Int(n))).s) == n
  {
    IntToStringIsNumeric(n);
    IntCastOfIntToString(n, []);
    assert IntToString(n) + [] == IntToString(n);
  }

  // ---------------------------------------------------------------------
  // The keyspace seen through the store

  /** The reply to `GET`: the stored string, or None (phpredis returns false). */
  function Reply(d: Keyspace, key: string): Option<string>
  {
    if key in d then Some(d[key].raw) else None
  }

  /** `get($key)`: the decoded value under `prefix.key`, or null when nothing is stored. */
  function Fetch(json: Json, d: Keyspace, prefix: string, key: string): Value
  {
    var reply := Reply(d, prefix + key);
    if reply.Some? then Decode(json, reply.value) else Null
  }

  /** The keyspace after `put`/`forever`: the encoded value under `prefix.key` with the given expiry. */
  function Stored(json: Json, d: Keyspace, prefix: string, key: string, v: Value, ttl: Option<int>): Keyspace
  {
    d[prefix + key := Entry(Encode(json, v), ttl)]
  }

  lemma PrefixCancels(prefix: string, a: string, b: string)
    requires prefix + a == prefix + b
    ensures a == b
  {
    assert a == (prefix + a)[|prefix|..];
    assert b == (prefix + b)[|prefix|..];
  }

  /** Reading a key back after `put` gives the stored value, normalized, with the expiry `put` used. */
  lemma PutThenGet(json: Json, d: Keyspace, prefix: string, key: string, v: Value, ttl: Option<int>)
    requires Sound(json) && WellFormed(v)
    ensures Fetch(json, Stored(json, d, prefix, key, v, ttl), prefix, key) == Normalized(v)
    ensures Stored(json, d, prefix, key, v, ttl)[prefix + key].ttl == ttl
  {
    CodecRoundTrip(json, v);
  }

  /** `put` under one key leaves every other key of the same store as it was. */
  lemma PutKeepsOthers(json: Json, d: Keyspace, prefix: string, key: string, other: string, v: Value, ttl: Option<int>)
    requires other != key
    ensures Fetch(json, Stored(json, d, prefix, key, v, ttl), prefix, other) == Fetch(json, d, prefix, other)
  {
    if prefix + other == prefix + key {
      PrefixCancels(prefix, other, key);
    }
  }

  /** The keys `many` asks for: each requested key behind the store's prefix. */
  function Prefixed(prefix: string, keys: seq<string>): (prefixed: seq<string>)
    ensures |prefixed| == |keys|
  {
    seq(|keys|, i requires 0 <= i < |keys| => prefix + keys[i])
  }

  /** The replies to `MGET`, one per key, in order. */
  function MGet(d: Keyspace, keys: seq<string>): (replies: seq<Option<string>>)
  {
    seq(|keys|, i requires 0 <= i < |keys| => Reply(d, keys[i]))
  }

  /** How `many` decodes one reply: a missing key's `false` is JSON-decoded as the empty text. */
  function DecodeReply(json: Json, reply: Option<string>): Value
  {
    match reply
    case Some(raw) => Decode(json, raw)
    case None => json.decode("")
  }

  /** `many($keys)`: each requested key bound to its decoded reply, later duplicates overwriting. */
  function ManyResult(json: Json, d: Keyspace, prefix: string, keys: seq<string>): seq<(string, Value)>
    decreases |keys|
  {
    if keys == [] then []
    else
      var last := keys[|keys| - 1];
      Put(ManyResult(json, d, prefix, keys[..|keys| - 1]), last, DecodeReply(json, Reply(d, prefix + last)))
  }

  /** `many` has exactly one entry per requested key, and nothing else. */
  lemma {:induction false} ManyKeys(json: Json, d: Keyspace, prefix: string, keys: seq<string>)
    ensures UniqueKeys(ManyResult(json, d, prefix, keys))
    ensures forall k :: k in Keys(ManyResult(json, d, prefix, keys)) <==> k in keys
    decreases |keys|
  {
    if keys != [] {
      var init, last := keys[..|keys| - 1], keys[|keys| - 1];
      assert keys == init + [last];
      ManyKeys(json, d, prefix, init);
      ManyResultStep(ManyResult(json, d, prefix, init), init, last, DecodeReply(json, Reply(d, prefix + last)));
    }
  }

  /** One more requested key binds that key to its decoded reply. */
  lemma ManyResultSnoc(json: Json, d: Keyspace, prefix: string, keys: seq<string>, i: nat,
                        prev: seq<(string, Value)>, replies: seq<Option<string>>, v: Value)
    requires i < |keys| && prev == ManyResult(json, d, prefix, keys[..i])
    requires replies == MGet(d, Prefixed(prefix, keys))
    requires var reply := replies[i];
      v == if reply.Some? && IsNumericString(reply.value) then Str(reply.value)
           else json.decode(if reply.Some? then reply.value else "")
    ensures PhpArray.Put(prev, keys[i], v) == ManyResult(json, d, prefix, keys[..i + 1])
  {
    assert keys[..i + 1][..i] == keys[..i];
    assert replies[i] == Reply(d, prefix + keys[i]);
    assert v == DecodeReply(json, replies[i]);
  }

  lemma ManyResultStep(prev: seq<(string, Value)>, init: seq<string>, last: string, v: Value)
    requires UniqueKeys(prev)
    requires forall k :: k in Keys(prev) <==> k in init
    ensures UniqueKeys(PhpArray.Put(prev, last, v))
    ensures forall k :: k in Keys(PhpArray.Put(prev, last, v)) <==> k in init + [last]
  {
    PutKeepsUniqueKeys(prev, last, v);
    forall k ensures k in Keys(PhpArray.Put(prev, last, v)) <==> k in init + [last] {
      assert Lookup(PhpArray.Put(prev, last, v), k).Some? <==> k == last || Lookup(prev, k).Some?;
    }
  }

  /** A missing key reads as null both through `get` and through `many`. */
  lemma ReplyAgreesWithGet(json: Json, d: Keyspace, prefix: string, key: string)
    requires Sound(json)
    ensures DecodeReply(json, Reply(d, prefix + key)) == Fetch(json, d, prefix, key)
  {
  }

  /** Every requested key maps to what `get` would return for it. */
  lemma {:induction false} ManyValues(json: Json, d: Keyspace, prefix: string, keys: seq<string>, k: string)
    requires Sound(json)
    requires k in keys
    ensures Lookup(ManyResult(json, d, prefix, keys), k) == Some(Fetch(json, d, prefix, k))
    decreases |keys|
  {
    var init := keys[..|keys| - 1];
    var last := keys[|keys| - 1];
    assert keys == init + [last];
    ReplyAgreesWithGet(json, d, prefix, last);
    if k != last {
      ManyValues(json, d, prefix, init, k);
    }
  }

  /** With distinct keys, `many` lists them in the order they were requested. */
  lemma {:induction false} ManyOrder(json: Json, d: Keyspace, prefix: string, keys: seq<string>)
    requires forall i, j :: 0 <= i < j < |keys| ==> keys[i] != keys[j]
    ensures Keys(ManyResult(json, d, prefix, keys)) == keys
    decreases |keys|
  {
    if keys != [] {
      var init := keys[..|keys| - 1];
      var last := keys[|keys| - 1];
      assert keys == init + [last];
      ManyOrder(json, d, prefix, init);
      ManyKeys(json, d, prefix, init);
      LastNotInInit(keys);
      ManyOrderStep(ManyResult(json, d, prefix, init), init, last, DecodeReply(json, Reply(d, prefix + last)));
    }
  }

  lemma LastNotInInit(keys: seq<string>)
    requires keys != []
    requires forall i, j :: 0 <= i < j < |keys| ==> keys[i] != keys[j]
    ensures keys[|keys| - 1] !in keys[..|keys| - 1]
  {
  }

  lemma ManyOrderStep(prev: seq<(string, Value)>, init: seq<string>, last: string, v: Value)
    requires Keys(prev) == init && last !in init
    ensures Keys(PhpArray.Put(prev, last, v)) == init + [last]
  {
    assert PhpArray.Put(prev, last, v) == prev + [(last, v)];
    assert Keys(prev + [(last, v)]) == Keys(prev) + [last];
  }

  // ---------------------------------------------------------------------
  // putMany

  /** Distinct keys stay distinct under a common prefix. */
  lemma PrefixedKeysDistinct(prefix: string, values: seq<(string, Value)>)
    ensures UniqueKeys(values) ==>
      forall i, j :: 0 <= i < j < |values| ==> prefix + values[i].0 != prefix + values[j].0
  {
    if UniqueKeys(values) {
      forall i, j | 0 <= i < j < |values| ensures prefix + values[i].0 != prefix + values[j].0 {
        assert Keys(values)[i] != Keys(values)[j];
        if prefix + values[i].0 == prefix + values[j].0 {
          PrefixCancels(prefix, values[i].0, values[j].0);
        }
      }
    }
  }

  /** The batch `putMany` queues: one `set` per pair, in order, the value as PHP converts it to a string. */
  function SetCommands(prefix: string, values: seq<(string, Value)>, seconds: int): seq<Command>
  {
    seq(|values|, i requires 0 <= i < |values| => Set(prefix + values[i].0, Text(values[i].1), seconds))
  }

  /** A batch queued from a PHP array sets distinct keys. */
  lemma SetCommandsDistinct(prefix: string, values: seq<(string, Value)>, seconds: int)
    requires UniqueKeys(values)
    ensures forall i, j :: 0 <= i < j < |SetCommands(prefix, values, seconds)| ==>
      SetCommands(prefix, values, seconds)[i].key != SetCommands(prefix, values, seconds)[j].key
  {
    PrefixedKeysDistinct(prefix, values);
  }

  /** The `set` that `put` issues for one pair. */
  function EncodedSet(json: Json, prefix: string, pair: (string, Value), seconds: int): Command
  {
    Set(prefix + pair.0, Encode(json, pair.1), seconds)
  }

  /** The batch as `put` would write it: each value encoded, the expiry floored at one second. */
  function EncodedCommands(json: Json, prefix: string, values: seq<(string, Value)>, time: Duration): seq<Command>
  {
    seq(|values|, i requires 0 <= i < |values| => EncodedSet(json, prefix, values[i], PutSeconds(time)))
  }

  /**
   * The corrected batch has every expiry at least one second, and from a PHP
   * array it sets distinct keys.
   */
  lemma EncodedCommandsShape(json: Json, prefix: string, values: seq<(string, Value)>, time: Duration)
    ensures forall i :: 0 <= i < |EncodedCommands(json, prefix, values, time)| ==>
      EncodedCommands(json, prefix, values, time)[i].seconds >= 1
    ensures UniqueKeys(values) ==> forall i, j :: 0 <= i < j < |EncodedCommands(json, prefix, values, time)| ==>
      EncodedCommands(json, prefix, values, time)[i].key != EncodedCommands(json, prefix, values, time)[j].key
  {
    PrefixedKeysDistinct(prefix, values);
  }

  /** Queuing one more pair extends the encoded batch by that pair's `set`. */
  lemma EncodedCommandsSnoc(json: Json, prefix: string, values: seq<(string, Value)>, time: Duration, i: nat)
    requires i < |values|
    ensures EncodedCommands(json, prefix, values[..i + 1], time)
      == EncodedCommands(json, prefix, values[..i], time) + [EncodedSet(json, prefix, values[i], PutSeconds(time))]
  {
    var longer := EncodedCommands(json, prefix, values[..i + 1], time);
    var shorter := EncodedCommands(json, prefix, values[..i], time);
    forall j | 0 <= j < i
      ensures longer[j] == shorter[j]
    {
      assert values[..i + 1][j] == values[..i][j];
    }
  }

  /** After `putMany`, each pair's key holds the value's string conversion with the batch expiry. */
  lemma PutManyWrites(d: Keyspace, prefix: string, values: seq<(string, Value)>, seconds: int, i: nat)
    requires UniqueKeys(values) && i < |values|
    ensures prefix + values[i].0 in ApplyAll(d, SetCommands(prefix, values, seconds))
    ensures ApplyAll(d, SetCommands(prefix, values, seconds))[prefix + values[i].0] ==
      Entry(Text(values[i].1), Some(seconds))
  {
    SetCommandsDistinct(prefix, values, seconds);
    ApplyAllLastWins(d, SetCommands(prefix, values, seconds), i);
  }

  /** `putMany` leaves every key outside the batch as it was. */
  lemma PutManyKeepsOthers(d: Keyspace, prefix: string, values: seq<(string, Value)>, seconds: int, key: string)
    requires forall i :: 0 <= i < |values| ==> key != prefix + values[i].0
    ensures key in ApplyAll(d, SetCommands(prefix, values, seconds)) <==> key in d
    ensures key in d ==> ApplyAll(d, SetCommands(prefix, values, seconds))[key] == d[key]
  {
    ApplyAllUntouched(d, SetCommands(prefix, values, seconds), key);
  }

  /**
   * As written, `putMany` stores `true` as PHP's string "1", which `get`
   * reads back as the string "1"; `put` stores it as JSON and reads back `true`.
   */
  lemma PutManyRawBoolean(json: Json, d: Keyspace, prefix: string, key: string, time: Duration)
    requires Sound(json)
    ensures Fetch(json, ApplyAll(d, SetCommands(prefix, [(key, Bool(true))], TranslateToSeconds(time))), prefix, key)
      == Str("1")
    ensures Fetch(json, Stored(json, d, prefix, key, Bool(true), Some(PutSeconds(time))), prefix, key) == Bool(true)
  {
    PutManyWrites(d, prefix, [(key, Bool(true))], TranslateToSeconds(time), 0);
    PutThenGet(json, d, prefix, key, Bool(true), Some(PutSeconds(time)));
  }

  /** As written, `putMany` passes the translated expiry on unfloored: "0" gives an expiry of 0 seconds. */
  lemma PutManyExpiryUnfloored(prefix: string, key: string, v: Value)
    ensures SetCommands(prefix, [(key, v)], TranslateToSeconds(Token("0")))[0].seconds == 0
    ensures PutSeconds(Token("0")) == 1
  {
    FloorExamples();
    assert IntToString(0) == "0";
    BareTokenIsSeconds(0);
  }

  /**
   * The batch as evidently intended: after it, every pair reads back as
   * `put` would have stored it, value and expiry alike.
   */
  lemma EncodedBatchRoundTrip(json: Json, d: Keyspace, prefix: string, values: seq<(string, Value)>,
                              time: Duration, i: nat)
    requires Sound(json) && UniqueKeys(values) && i < |values| && WellFormed(values[i].1)
    ensures prefix + values[i].0 in ApplyAll(d, EncodedCommands(json, prefix, values, time))
    ensures Fetch(json, ApplyAll(d, EncodedCommands(json, prefix, values, time)), prefix, values[i].0)
      == Normalized(values[i].1)
    ensures ApplyAll(d, EncodedCommands(json, prefix, values, time))[prefix + values[i].0] ==
      Stored(json, d, prefix, values[i].0, values[i].1, Some(PutSeconds(time)))[prefix + values[i].0]
  {
    EncodedCommandsShape(json, prefix, values, time);
    ApplyAllLastWins(d, EncodedCommands(json, prefix, values, time), i);
    CodecRoundTrip(json, values[i].1);
  }

  // ---------------------------------------------------------------------
  // The store

  /** `Barbery\Extensions\RedisStore` over the keyspace of its connection. */
  class RedisStore {
    const prefix: string
    const json: Json
    var data: Keyspace

    constructor (prefix: string, json: Json, data: Keyspace)
      ensures this.prefix == prefix && this.json == json && this.data == data
    {
      this.prefix := prefix;
      this.json := json;
      this.data := data;
    }

    /** `get`: the decoded value under `prefix.key`; null when the key is missing. */
    method Get(key: string) returns (value: Value)
      ensures value == Fetch(json, data, prefix, key)
    {
      var reply := Reply(data, prefix + key);
      if reply.Some? {
        value := Decode(json, reply.value);
      } else {
        value := Null;
      }
    }

    /** `put`: stores the encoded value under `prefix.key` with the floored expiry. */
    method Put(key: string, value: Value, time: Duration)
      modifies this
      ensures data == Stored(json, old(data), prefix, key, value, Some(PutSeconds(time)))
    {
      var raw := if IsNumeric(value) then Text(value) else json.encode(value);
      var seconds := PutSeconds(time);
      data := data[prefix + key := Entry(raw, Some(seconds))];
    }

    /** `many`: one `MGET` round trip, then each reply decoded under its unprefixed key. */
    method Many(keys: seq<string>) returns (result: seq<(string, Value)>)
      ensures result == ManyResult(json, data, prefix, keys)
    {
      var values := MGet(data, Prefixed(prefix, keys));
      result := [];
      var i := 0;
      while i < |values|
        invariant 0 <= i <= |values| == |keys|
        invariant result == ManyResult(json, data, prefix, keys[..i])
      {
        var value := values[i];
        var decoded := if value.Some? && IsNumericString(value.value) then Str(value.value)
                       else json.decode(if value.Some? then value.value else "");
        ManyResultSnoc(json, data, prefix, keys, i, result, values, decoded);
        result := PhpArray.Put(result, keys[i], decoded);
        i := i + 1;
      }
      assert keys[..|keys|] == keys;
    }

    /** `forever`: stores the encoded value under `prefix.key` with no expiry. */
    method Forever(key: string, value: Value)
      modifies this
      ensures data == Stored(json, old(data), prefix, key, value, None)
    {
      var raw := if IsNumeric(value) then Text(value) else json.encode(value);
      data := data[prefix + key := Entry(raw, None)];
    }

    /**
     * `flush`: empties the keyspace unless the `database.redis.cluster`
     * setting (passed in) is truthy, in which case nothing changes.
     */
    method Flush(clusterSetting: Value)
      modifies this
      ensures Falsy(clusterSetting) ==> data == map[]
      ensures !Falsy(clusterSetting) ==> data == old(data)
    {
      if Falsy(clusterSetting) {
        data := map[];
      }
    }

    /** The pipeline callback: one `set` queued per pair, in the array's order. */
    static method QueueSets(prefix: string, values: seq<(string, Value)>, seconds: int) returns (cmds: seq<Command>)
      ensures cmds == SetCommands(prefix, values, seconds)
    {
      cmds := [];
      var i := 0;
      while i < |values|
        invariant 0 <= i <= |values|
        invariant |cmds| == i
        invariant forall j :: 0 <= j < i ==> cmds[j] == Set(prefix + values[j].0, Text(values[j].1), seconds)
      {
        cmds := cmds + [Set(prefix + values[i].0, Text(values[i].1), seconds)];
        i := i + 1;
      }
    }

    /** Executes a queued batch: the commands take effect in the order they were queued. */
    method Exec(cmds: seq<Command>)
      modifies this
      ensures data == ApplyAll(old(data), cmds)
    {
      var i := 0;
      while i < |cmds|
        invariant 0 <= i <= |cmds|
        invariant data == ApplyAll(old(data), cmds[..i])
      {
        assert cmds[..i + 1][..i] == cmds[..i];
        data := data[cmds[i].key := Entry(cmds[i].value, Some(cmds[i].seconds))];
        i := i + 1;
      }
      assert cmds[..|cmds|] == cmds;
    }

    /** `putMany` as written: raw values and the unfloored expiry, sent as one pipelined batch. */
    method PutMany(values: seq<(string, Value)>, time: Duration)
      modifies this
      ensures data == ApplyAll(old(data), SetCommands(prefix, values, TranslateToSeconds(time)))
    {
      var seconds := TranslateToSeconds(time);
      var cmds := QueueSets(prefix, values, seconds);
      Exec(cmds);
    }

    /** `putMany` as evidently intended: each value encoded as `put` does, the expiry floored. */
    method PutManyEncoded(values: seq<(string, Value)>, time: Duration)
      modifies this
      ensures data == ApplyAll(old(data), EncodedCommands(json, prefix, values, time))
    {
      var cmds := QueueEncodedSets(json, prefix, values, time);
      Exec(cmds);
    }

    /** The corrected callback: one `set` per pair, each value encoded, the expiry floored. */
    static method QueueEncodedSets(json: Json, prefix: string, values: seq<(string, Value)>, time: Duration)
      returns (cmds: seq<Command>)
      ensures cmds == EncodedCommands(json, prefix, values, time)
    {
      var seconds := PutSeconds(time);
      cmds := [];
      var i := 0;
      while i < |values|
        invariant 0 <= i <= |values|
        invariant cmds == EncodedCommands(json, prefix, values[..i], time)
      {
        EncodedCommandsSnoc(json, prefix, values, time, i);
        cmds := cmds + [EncodedSet(json, prefix, values[i], seconds)];
        i := i + 1;
      }
      assert values[..i] == values;
    }
  }
}
