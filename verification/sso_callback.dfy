/**
 * Parsing of the payload the Twitter app sends back after an accepted SSO
 * handoff (`parseSSOCallback`). The items of the payload are folded into a
 * dictionary from the front, each valued item overwriting earlier ones of the
 * same name and items without a value skipped; then `token`, `secret` and
 * `username` are looked up.
 */
module SsoCallback {
  import opened Wrappers
  import opened Foundation
  import opened AuthResult

  /** The item gives `name` a value. */
  predicate Assigns(item: QueryItem, name: string)
  {
    item.name == name && item.value.Some?
  }

  /** One step of the `reduce`: a valued item overwrites its key, a bare item is skipped. */
  function Insert(dict: map<string, string>, item: QueryItem): map<string, string>
  {
    if item.value.Some? then dict[item.name := item.value.value] else dict
  }

  /** `items.reduce(dict, Insert)`: the left fold over the items. */
  function Fold(dict: map<string, string>, items: seq<QueryItem>): map<string, string>
    decreases |items|
  {
    if items == [] then dict else Fold(Insert(dict, items[0]), items[1..])
  }

  /** The dictionary built from the payload's items, starting from `[:]`. */
  function Dictionary(items: seq<QueryItem>): (dict: map<string, string>)
    ensures forall name :: name in dict ==> exists i :: 0 <= i < |items| && Assigns(items[i], name)
  {
    FoldKeys(map[], items);
    Fold(map[], items)
  }

  lemma {:induction false} FoldKeys(dict: map<string, string>, items: seq<QueryItem>)
    ensures forall name :: name in Fold(dict, items) ==>
      name in dict || exists i :: 0 <= i < |items| && Assigns(items[i], name)
    decreases |items|
  {
    if items != [] {
      FoldKeys(Insert(dict, items[0]), items[1..]);
      forall name | name in Fold(dict, items) && name !in dict
        ensures exists i :: 0 <= i < |items| && Assigns(items[i], name)
      {
        if name in Insert(dict, items[0]) {
          assert Assigns(items[0], name);
        } else {
          var j :| 0 <= j < |items[1..]| && Assigns(items[1..][j], name);
          assert Assigns(items[j + 1], name);
        }
      }
    }
  }

  /** Dictionary lookup as an optional value (`dict[name]` in Swift). */
  function Lookup(dict: map<string, string>, name: string): Option<string>
  {
    if name in dict then Some(dict[name]) else None
  }

  /**
   * Reference definition of last-write-wins, independent of the fold: scan
   * the items from the back and take the first one that gives `name` a value.
   */
  function LatestValue(items: seq<QueryItem>, name: string): Option<string>
  {
    if items == [] then None
    else if Assigns(items[|items| - 1], name) then items[|items| - 1].value
    else LatestValue(items[..|items| - 1], name)
  }

  /** Folding one more item at the end is one more `Insert`. */
  lemma {:induction false} FoldSnoc(dict: map<string, string>, items: seq<QueryItem>, item: QueryItem)
    ensures Fold(dict, items + [item]) == Insert(Fold(dict, items), item)
    decreases |items|
  {
    if items == [] {
      assert Fold(Insert(dict, item), []) == Insert(dict, item);
      assert [item][1..] == [];
    } else {
      assert (items + [item])[0] == items[0];
      assert (items + [item])[1..] == items[1..] + [item];
      FoldSnoc(Insert(dict, items[0]), items[1..], item);
    }
  }

  /** The folded dictionary agrees with the last-write-wins reference on every key. */
  lemma {:induction false} DictionaryIsLatest(items: seq<QueryItem>, name: string)
    ensures Lookup(Dictionary(items), name) == LatestValue(items, name)
    decreases |items|
  {
    if items != [] {
      var init, last := items[..|items| - 1], items[|items| - 1];
      assert items == init + [last];
      FoldSnoc(map[], init, last);
      DictionaryIsLatest(init, name);
    }
  }

  /**
   * `LatestValue` is the value of the last item that gives `name` a value:
   * it is `Some(v)` exactly when some item sets `name` to `v` and no later item
   * sets `name` at all.
   */
  lemma {:induction false} LatestValueIsLastWrite(items: seq<QueryItem>, name: string, v: string)
    ensures LatestValue(items, name) == Some(v) <==>
      exists i :: 0 <= i < |items| && items[i] == QueryItem(name, Some(v)) &&
        forall j :: i < j < |items| ==> !Assigns(items[j], name)
    decreases |items|
  {
    if items != [] {
      var n := |items| - 1;
      var init := items[..n];
      LatestValueIsLastWrite(init, name, v);
      if Assigns(items[n], name) {
        if LatestValue(items, name) == Some(v) {
          assert items[n] == QueryItem(name, Some(v));
        } else {
          forall i | 0 <= i < |items| && items[i] == QueryItem(name, Some(v))
            ensures exists j :: i < j < |items| && Assigns(items[j], name)
          {
            assert i != n;
            assert Assigns(items[n], name);
          }
        }
      } else {
        if LatestValue(items, name) == Some(v) {
          var i :| 0 <= i < |init| && init[i] == QueryItem(name, Some(v)) &&
            forall j :: i < j < |init| ==> !Assigns(init[j], name);
          assert items[i] == QueryItem(name, Some(v));
          forall j | i < j < |items| ensures !Assigns(items[j], name) {
            if j < n { assert items[j] == init[j]; }
          }
        } else {
          forall i | 0 <= i < |items| && items[i] == QueryItem(name, Some(v))
            ensures exists j :: i < j < |items| && Assigns(items[j], name)
          {
            assert i != n;
            assert init[i] == items[i];
            var j :| i < j < |init| && Assigns(init[j], name);
            assert items[j] == init[j];
          }
        }
      }
    }
  }

  /** A key no item gives a value is absent from the parsed payload. */
  lemma {:induction false} LatestValueAbsent(items: seq<QueryItem>, name: string)
    ensures LatestValue(items, name) == None <==> forall i :: 0 <= i < |items| ==> !Assigns(items[i], name)
    decreases |items|
  {
    if items != [] {
      var n := |items| - 1;
      LatestValueAbsent(items[..n], name);
      assert forall i :: 0 <= i < n ==> items[..n][i] == items[i];
    }
  }

  /**
   * What `parseSSOCallback` delivers for a payload: `cancelled` when there is
   * no host to parse; otherwise the latest values of `token`, `secret` and
   * `username` when all three are present, and `failed(nil)` when any is missing.
   */
  function SsoResult(hostQuery: Option<seq<QueryItem>>): (r: Result)
    ensures hostQuery.None? ==> r == Cancelled
    ensures hostQuery.Some? ==>
      var items := hostQuery.value;
      var token, secret, username := LatestValue(items, "token"), LatestValue(items, "secret"), LatestValue(items, "username");
      r == if token.Some? && secret.Some? && username.Some?
           then Success(token.value, secret.value, username.value)
           else Failed(None)
  {
    match hostQuery
    case None => Cancelled
    case Some(items) =>
      var dict := Dictionary(items);
      DictionaryIsLatest(items, "token");
      DictionaryIsLatest(items, "secret");
      DictionaryIsLatest(items, "username");
      if "token" in dict && "secret" in dict && "username" in dict
      then Success(dict["token"], dict["secret"], dict["username"])
      else Failed(None)
  }
}
