/** Dotted-path access into a workitem's fields: the loops of
    `Workitem.lookup` and `Workitem.set_field`, on a path that has already
    been split on '.'. */
module FieldPaths {
  import opened Outcomes
  import opened Strings
  import opened JsonValues

  /** The loop of `lookup`: for each key, `if k not in ref: return None`,
      then `ref = ref[k]`. On a dict that is key membership; on a string
      `in` is a substring test and on a list an element test, and when
      either succeeds the subscript by a string raises TypeError; None,
      booleans and numbers do not support `in` at all. */
  function Walk(node: Json, path: seq<string>): (r: Result<Option<Json>>)
    ensures |path| == 0 ==> r == Ok(Some(node))
    ensures |path| > 0 && node.JObj? && path[0] !in node.members ==> r == Ok(None)
    decreases |path|
  {
    if |path| == 0 then Ok(Some(node))
    else
      match node
      case JObj(m) => if path[0] in m then Walk(m[path[0]], path[1..]) else Ok(None)
      case JStr(s) => if IsSubstring(path[0], s) then Err(TypeError) else Ok(None)
      case JArr(items) => if JStr(path[0]) in items then Err(TypeError) else Ok(None)
      case _ => Err(TypeError)
  }

  /** The loop of `set_field`: every key but the last is created as `{}`
      when missing and descended into; the last key is assigned. Any
      existing value on the way that is not a dict makes a subscript,
      an assignment or `in` raise TypeError. Such a value can only be met
      before the first key is created (everything created is a dict), so
      a raising call has changed nothing and is modelled as Err alone. */
  function Put(node: Json, path: seq<string>, v: Json): (r: Result<Json>)
    requires |path| >= 1
    ensures r.Ok? ==> r.value.JObj? && node.JObj?
    ensures r.Ok? && |path| == 1 ==> r.value.members == node.members[path[0] := v]
    decreases |path|
  {
    match node
    case JObj(m) =>
      if |path| == 1 then Ok(JObj(m[path[0] := v]))
      else
        var child := if path[0] in m then m[path[0]] else EmptyObj;
        var updated :- Put(child, path[1..], v);
        Ok(JObj(m[path[0] := updated]))
    case _ => Err(TypeError)
  }

  /** One more key after a prefix that reached a dict: its value when the
      key is present, and None when it is not. */
  lemma {:induction false} WalkExtends(node: Json, path: seq<string>, k: string, m: map<string, Json>)
    requires Walk(node, path) == Ok(Some(JObj(m)))
    ensures Walk(node, path + [k]) == Ok(if k in m then Some(m[k]) else None)
    decreases |path|
  {
    if |path| > 0 {
      assert (path + [k])[0] == path[0] && (path + [k])[1..] == path[1..] + [k];
      WalkExtends(node.members[path[0]], path[1..], k, m);
    }
  }

  /** Once a prefix has met a missing key, the rest of the path is never
      looked at: the walk stays None. */
  lemma {:induction false} WalkStaysNone(node: Json, path: seq<string>, rest: seq<string>)
    requires Walk(node, path) == Ok(None)
    ensures Walk(node, path + rest) == Ok(None)
    decreases |path|
  {
    assert |path| > 0;
    assert (path + rest)[0] == path[0] && (path + rest)[1..] == path[1..] + rest;
    if node.JObj? && path[0] in node.members {
      WalkStaysNone(node.members[path[0]], path[1..], rest);
    }
  }

  /** The first missing key decides: when the keys before position `i`
      lead to a dict without `path[i]`, the whole walk gives None. */
  lemma WalkStopsAtMissingKey(node: Json, path: seq<string>, i: nat, m: map<string, Json>)
    requires i < |path|
    requires Walk(node, path[..i]) == Ok(Some(JObj(m))) && path[i] !in m
    ensures Walk(node, path) == Ok(None)
  {
    WalkExtends(node, path[..i], path[i], m);
    assert path[..i] + [path[i]] == path[..i + 1];
    WalkStaysNone(node, path[..i + 1], path[i + 1..]);
    assert path[..i + 1] + path[i + 1..] == path;
  }

  /** What `set_field` needs at each proper prefix of the path: nothing
      there yet, or a dict. */
  predicate Settable(w: Result<Option<Json>>)
  {
    w == Ok(None) || (w.Ok? && w.value.Some? && w.value.value.JObj?)
  }

  /** After a successful `set_field`, `lookup` of the same path gives the
      value just written. */
  lemma {:induction false} PutThenWalk(node: Json, path: seq<string>, v: Json)
    requires |path| >= 1
    requires Put(node, path, v).Ok?
    ensures Walk(Put(node, path, v).value, path) == Ok(Some(v))
    decreases |path|
  {
    var m := node.members;
    if |path| > 1 {
      var child := if path[0] in m then m[path[0]] else EmptyObj;
      PutThenWalk(child, path[1..], v);
    }
  }

  /** Writing below a fresh `{}` never fails. */
  lemma {:induction false} PutIntoEmpty(path: seq<string>, v: Json)
    requires |path| >= 1
    ensures Put(EmptyObj, path, v).Ok?
    decreases |path|
  {
    if |path| > 1 {
      PutIntoEmpty(path[1..], v);
    }
  }

  /** Nothing can be walked below a fresh `{}`. */
  lemma WalkEmpty(path: seq<string>)
    requires |path| >= 1
    ensures Walk(EmptyObj, path) == Ok(None)
  {
  }

  /** `set_field` succeeds exactly when every proper prefix of the path is
      either absent or a dict. */
  lemma {:induction false} PutSucceedsIff(node: Json, path: seq<string>, v: Json)
    requires |path| >= 1
    ensures Put(node, path, v).Ok? <==>
      forall i :: 0 <= i < |path| ==> Settable(Walk(node, path[..i]))
    decreases |path|
  {
    assert path[..0] == [];
    if !node.JObj? {
      assert !Settable(Walk(node, path[..0]));
    } else if |path| > 1 {
      var m := node.members;
      var rest := path[1..];
      forall i | 1 <= i < |path|
        ensures path[..i][0] == path[0] && path[..i][1..] == rest[..i - 1]
      {
      }
      if path[0] in m {
        PutSucceedsIff(m[path[0]], rest, v);
        forall i | 1 <= i < |path|
          ensures Walk(node, path[..i]) == Walk(m[path[0]], rest[..i - 1])
        {
        }
        if Put(node, path, v).Ok? {
          forall i | 0 <= i < |path|
            ensures Settable(Walk(node, path[..i]))
          {
            if i > 0 {
              assert Settable(Walk(m[path[0]], rest[..i - 1]));
            }
          }
        } else {
          var j :| 0 <= j < |rest| && !Settable(Walk(m[path[0]], rest[..j]));
          assert !Settable(Walk(node, path[..j + 1]));
        }
      } else {
        PutIntoEmpty(rest, v);
        forall i | 0 <= i < |path|
          ensures Settable(Walk(node, path[..i]))
        {
          if i > 0 {
            assert Walk(node, path[..i]) == Ok(None);
          }
        }
      }
    }
  }

  /** Two paths diverge when they differ at some position both have;
      neither is then a prefix of the other. */
  predicate Diverges(p: seq<string>, q: seq<string>)
    decreases |p|
  {
    |p| > 0 && |q| > 0 && (p[0] != q[0] || Diverges(p[1..], q[1..]))
  }

  /** `set_field` leaves every path that diverges from its own unchanged:
      only the target and the dicts leading to it are touched. */
  lemma {:induction false} PutLeavesOtherPaths(node: Json, path: seq<string>, v: Json, q: seq<string>)
    requires |path| >= 1
    requires Put(node, path, v).Ok?
    requires Diverges(path, q)
    ensures Walk(Put(node, path, v).value, q) == Walk(node, q)
    decreases |path|
  {
    var m := node.members;
    if path[0] == q[0] {
      assert |path| > 1;
      var child := if path[0] in m then m[path[0]] else EmptyObj;
      PutLeavesOtherPaths(child, path[1..], v, q[1..]);
      if path[0] !in m {
        WalkEmpty(q[1..]);
      }
    }
  }
}
