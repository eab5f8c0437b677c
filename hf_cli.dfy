// hf_t2v_hunter/hf_t2v_hunter/cli.py: parse_weights, which turns the
// repeated `--weights key=value` options into the ranking weights. Python's
// float() is the parameter `parseFloat`: None where float() raises.
module HfCli {
  import opened Text
  import opened Wrappers

  /**
   * What one item contributes: the stripped text before its first "=" and
   * the parsed text after it, or None when the item is skipped (no "=", or a
   * value float() rejects).
   */
  function Entry(item: string, parseFloat: string -> Option<real>): (e: Option<(string, real)>)
    ensures '=' !in item ==> e.None?
    ensures e.Some? ==> var i := Find(item, '=');
      && 0 <= i && '=' !in item[..i]
      && e.value.0 == Strip(item[..i])
      && parseFloat(item[i + 1..]) == Some(e.value.1)
  {
    var i := Find(item, '=');
    if i < 0 then None
    else
      match parseFloat(item[i + 1..])
      case None => None
      case Some(v) => Some((Strip(item[..i]), v))
  }

  /** The dict after the loop has seen `items`, in order. */
  function Weights(items: seq<string>, parseFloat: string -> Option<real>): map<string, real>
  {
    if items == [] then map[]
    else
      var n := |items| - 1;
      var before := Weights(items[..n], parseFloat);
      match Entry(items[n], parseFloat)
      case None => before
      case Some(kv) => before[kv.0 := kv.1]
  }

  /** parse_weights */
  method ParseWeights(items: seq<string>, parseFloat: string -> Option<real>) returns (parsed: map<string, real>)
    ensures parsed == Weights(items, parseFloat)
  {
    parsed := map[];
    for i := 0 to |items|
      invariant parsed == Weights(items[..i], parseFloat)
    {
      var item := items[i];
      assert items[..i + 1][..i] == items[..i];
      var eq := Find(item, '=');
      if eq < 0 {
        continue;
      }
      var key, value := item[..eq], item[eq + 1..];
      var number := parseFloat(value);
      if number.None? {
        continue;
      }
      parsed := parsed[Strip(key) := number.value];
    }
    assert items[..|items|] == items;
  }

  /** A skipped item (no "=", or a value that is not a float) leaves the dict as it was. */
  lemma SkippedItem(items: seq<string>, item: string, parseFloat: string -> Option<real>)
    requires '=' !in item || parseFloat(item[Find(item, '=') + 1..]).None?
    ensures Weights(items + [item], parseFloat) == Weights(items, parseFloat)
  {
    assert (items + [item])[..|items|] == items;
  }

  /**
   * An item that parses sets its key to its value, whatever an earlier item
   * set, and no other key changes.
   */
  lemma LaterOverrides(items: seq<string>, item: string, parseFloat: string -> Option<real>, key: string, value: real)
    requires Entry(item, parseFloat) == Some((key, value))
    ensures Weights(items + [item], parseFloat) == Weights(items, parseFloat)[key := value]
  {
    assert (items + [item])[..|items|] == items;
  }

  /** Every key is stripped. */
  lemma {:induction false} KeysStripped(items: seq<string>, parseFloat: string -> Option<real>)
    ensures forall k :: k in Weights(items, parseFloat) ==> Strip(k) == k
  {
    if items != [] {
      var n := |items| - 1;
      KeysStripped(items[..n], parseFloat);
      var e := Entry(items[n], parseFloat);
      if e.Some? {
        StripTwice(items[n][..Find(items[n], '=')]);
      }
    }
  }

  /** Every key is the key of an item that parses. */
  lemma {:induction false} KeysFromItems(items: seq<string>, parseFloat: string -> Option<real>)
    ensures forall k :: k in Weights(items, parseFloat) ==>
      exists j :: 0 <= j < |items| && Entry(items[j], parseFloat).Some? && Entry(items[j], parseFloat).value.0 == k
  {
    if items != [] {
      var n := |items| - 1;
      var front := items[..n];
      KeysFromItems(front, parseFloat);
      forall k | k in Weights(items, parseFloat)
        ensures exists j :: 0 <= j < |items| && Entry(items[j], parseFloat).Some? && Entry(items[j], parseFloat).value.0 == k
      {
        var e := Entry(items[n], parseFloat);
        if !(e.Some? && e.value.0 == k) {
          assert k in Weights(front, parseFloat);
          var j :| 0 <= j < n && Entry(front[j], parseFloat).Some? && Entry(front[j], parseFloat).value.0 == k;
          assert front[j] == items[j];
        }
      }
    }
  }

  /** The value of a key is the value of the last item that parses to that key. */
  lemma {:induction false} LastWins(items: seq<string>, parseFloat: string -> Option<real>, j: nat, key: string, value: real)
    requires j < |items| && Entry(items[j], parseFloat) == Some((key, value))
    requires forall i :: j < i < |items| ==> Entry(items[i], parseFloat).None? || Entry(items[i], parseFloat).value.0 != key
    ensures key in Weights(items, parseFloat) && Weights(items, parseFloat)[key] == value
  {
    var n := |items| - 1;
    if j < n {
      assert forall i :: j < i < n ==> items[..n][i] == items[i];
      LastWins(items[..n], parseFloat, j, key, value);
    }
  }
}
