/**
 * The keyspace a connection serves and the pipelined batch of `set`
 * commands that `Database::pipeline` sends through it. Only the order in
 * which commands take effect is modelled: the batch is applied in issue order.
 */
module Pipeline {
  import opened Wrappers

  /** A stored string and the expiry, in seconds, it was written with (None: no expiry). */
  datatype Entry = Entry(raw: string, ttl: Option<int>)

  type Keyspace = map<string, Entry>

  /** `$pipe->set($key, $value, $seconds)`. */
  datatype Command = Set(key: string, value: string, seconds: int)

  function Apply(d: Keyspace, c: Command): Keyspace
  {
    d[c.key := Entry(c.value, Some(c.seconds))]
  }

  /** The keyspace after the batch, one command after the other. */
  function ApplyAll(d: Keyspace, cmds: seq<Command>): Keyspace
    decreases |cmds|
  {
    if cmds == [] then d else Apply(ApplyAll(d, cmds[..|cmds| - 1]), cmds[|cmds| - 1])
  }

  /** A key no command of the batch sets keeps its entry (or its absence). */
  lemma {:induction false} ApplyAllUntouched(d: Keyspace, cmds: seq<Command>, k: string)
    requires forall i :: 0 <= i < |cmds| ==> cmds[i].key != k
    ensures k in ApplyAll(d, cmds) <==> k in d
    ensures k in d ==> ApplyAll(d, cmds)[k] == d[k]
    decreases |cmds|
  {
    if cmds != [] {
      ApplyAllUntouched(d, cmds[..|cmds| - 1], k);
    }
  }

  /** The last command that sets a key decides its entry: later commands win. */
  lemma {:induction false} ApplyAllLastWins(d: Keyspace, cmds: seq<Command>, i: nat)
    requires i < |cmds|
    requires forall j :: i < j < |cmds| ==> cmds[j].key != cmds[i].key
    ensures cmds[i].key in ApplyAll(d, cmds)
    ensures ApplyAll(d, cmds)[cmds[i].key] == Entry(cmds[i].value, Some(cmds[i].seconds))
    decreases |cmds|
  {
    if i < |cmds| - 1 {
      var init := cmds[..|cmds| - 1];
      assert init[i] == cmds[i];
      ApplyAllLastWins(d, init, i);
    }
  }
}
