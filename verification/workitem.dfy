/** The Workitem: a decoded wire message (a dict) plus the
    FlowExpressionId copied from its "fei" entry when it was built. */
module Workitems {
  import opened Outcomes
  import opened Strings
  import opened JsonValues
  import opened FlowExpressionIds
  import opened FieldPaths

  /** Separates the keys of a `lookup` / `set_field` path. */
  const PathSep: char := '.'

  /** `_h`, the decoded message, and `_fei`, the identity copied from
      `_h['fei']` at construction. */
  datatype Workitem = Workitem(h: map<string, Json>, fei: Fei)

  /** `Workitem(msg)` once `json.loads(msg)` has produced `j`: subscripting
      a non-dict raises TypeError, a dict without "fei" KeyError. */
  function FromJson(j: Json): (r: Result<Workitem>)
    ensures r.Ok? <==> j.JObj? && "fei" in j.members
    ensures !j.JObj? ==> r == Err(TypeError)
    ensures j.JObj? && "fei" !in j.members ==> r == Err(KeyError("fei"))
    ensures r.Ok? ==> JObj(r.value.h) == j && Sid(r.value) == StorageId(Fei(j.members["fei"]))
  {
    match j
    case JObj(m) => if "fei" in m then Ok(Workitem(m, Fei(m["fei"]))) else Err(KeyError("fei"))
    case _ => Err(TypeError)
  }

  /** `to_h()`, the value `json.dumps` serialises. */
  function ToJson(w: Workitem): (j: Json)
  {
    JObj(w.h)
  }

  /** `self._h[key] = v`: the `error`, `trace` and `fields` setters, and
      any write through `to_h()`. */
  function SetTop(w: Workitem, key: string, v: Json): (r: Workitem)
  {
    w.(h := w.h[key := v])
  }

  /* ----------------------------------------------------------------------
     identity
     ---------------------------------------------------------------------- */

  /** `sid`: the storage id of the fei copied at construction. */
  function Sid(w: Workitem): (r: Result<string>)
    ensures r.Ok? <==>
      && w.fei.h.JObj?
      && "expid" in w.fei.h.members && "subid" in w.fei.h.members && "wfid" in w.fei.h.members
      && (Truthy(w.fei.h.members["subid"]) || "sub_wfid" in w.fei.h.members)
  {
    StorageId(w.fei)
  }

  /** `wfid`: read from the copied fei. */
  function Wfid(w: Workitem): (r: Result<Json>)
    ensures !w.fei.h.JObj? ==> r == Err(TypeError)
    ensures w.fei.h.JObj? && "wfid" !in w.fei.h.members ==> r == Err(KeyError("wfid"))
    ensures w.fei.h.JObj? && "wfid" in w.fei.h.members ==> r == Ok(w.fei.h.members["wfid"])
  {
    Get(w.fei, "wfid")
  }

  /** `fei`: a fresh FlowExpressionId over the current `_h['fei']`, which
      need not be the one copied at construction. */
  function FeiOf(w: Workitem): (r: Result<Fei>)
    ensures r.Ok? <==> "fei" in w.h
    ensures r.Ok? ==> r.value.h == w.h["fei"]
  {
    if "fei" in w.h then Ok(Fei(w.h["fei"])) else Err(KeyError("fei"))
  }

  /** `dup()`: `Workitem(json.dumps(self._h))`. The serialisation round
      trip is the identity on decoded values, so the copy has the same
      message; its fei is rebuilt from the current `_h['fei']`. */
  function Dup(w: Workitem): (r: Result<Workitem>)
    ensures r.Ok? <==> "fei" in w.h
    ensures r.Ok? ==> r.value.h == w.h && Ok(r.value.fei) == FeiOf(w)
  {
    FromJson(ToJson(w))
  }

  /* ----------------------------------------------------------------------
     flags and conventional keys
     ---------------------------------------------------------------------- */

  /** `is_cancel`: a "cancel" entry that is present and truthy. */
  predicate IsCancel(w: Workitem)
    ensures IsCancel(w) <==> Truthy(KeyOrNone(w, "cancel"))
  {
    "cancel" in w.h && Truthy(w.h["cancel"])
  }

  /** Only a present, truthy "cancel" marks a cancel: absence, false, 0,
      "" and None do not, while true and any non-empty string do. */
  lemma CancelFlagValues(w: Workitem)
    ensures !IsCancel(w.(h := w.h - {"cancel"}))
    ensures !IsCancel(SetTop(w, "cancel", JBool(false))) && !IsCancel(SetTop(w, "cancel", JInt(0)))
    ensures !IsCancel(SetTop(w, "cancel", JStr(""))) && !IsCancel(SetTop(w, "cancel", JNull))
    ensures IsCancel(SetTop(w, "cancel", JBool(true))) && IsCancel(SetTop(w, "cancel", JStr("no")))
  {
  }

  /** `wf_name` and `participant_name`: `_h[key]`, or None when the key is
      absent (the bare `except` catches the KeyError). */
  function KeyOrNone(w: Workitem, key: string): (r: Json)
    ensures key !in w.h ==> r == JNull
    ensures key in w.h ==> r == w.h[key]
  {
    if key in w.h then w.h[key] else JNull
  }

  function WfName(w: Workitem): (r: Json)
  {
    KeyOrNone(w, "wf_name")
  }

  function ParticipantName(w: Workitem): (r: Json)
  {
    KeyOrNone(w, "participant_name")
  }

  /** `error` and `trace` getters: plain subscripts, KeyError when unset. */
  function ErrorOf(w: Workitem): (r: Result<Json>)
    ensures "error" !in w.h ==> r == Err(KeyError("error"))
    ensures "error" in w.h ==> r == Ok(w.h["error"])
  {
    Subscript(ToJson(w), "error")
  }

  function TraceOf(w: Workitem): (r: Result<Json>)
  {
    Subscript(ToJson(w), "trace")
  }

  /** The `error` and `trace` setters write top-level entries that the
      getters read back, one independent of the other, leaving the rest of
      the message and the identity alone. */
  lemma ErrorTraceSettersRoundTrip(w: Workitem, e: Json, t: Json)
    ensures var u := SetTop(SetTop(w, "error", e), "trace", t);
      && ErrorOf(u) == Ok(e) && TraceOf(u) == Ok(t) && u.fei == w.fei
      && forall k :: k in w.h && k != "error" && k != "trace" ==> k in u.h && u.h[k] == w.h[k]
  {
  }

  /** The dict the `fields` property proxies: `_h['fields']`, or a fresh
      `{}` when the key is missing. */
  function FieldsProxy(w: Workitem): (r: Json)
    ensures "fields" in w.h ==> r == w.h["fields"]
    ensures "fields" !in w.h ==> r == EmptyObj
  {
    if "fields" in w.h then w.h["fields"] else EmptyObj
  }

  /** The dict the `params` property proxies: `_h['fields']['params']`, or
      a fresh `{}` when that raises (missing key, or `fields` not a dict). */
  function ParamsProxy(w: Workitem): (r: Json)
    ensures HasParams(w) ==> r == w.h["fields"].members["params"]
    ensures !HasParams(w) ==> r == EmptyObj
  {
    if "fields" in w.h then
      match Subscript(w.h["fields"], "params")
      case Ok(p) => p
      case Err(_) => EmptyObj
    else EmptyObj
  }

  /** `_h['fields']['params']` exists, so the params proxy wraps it. */
  predicate HasParams(w: Workitem)
  {
    "fields" in w.h && w.h["fields"].JObj? && "params" in w.h["fields"].members
  }

  /** `fields.params` is an existing dict. */
  predicate HasParamsDict(w: Workitem)
  {
    HasParams(w) && w.h["fields"].members["params"].JObj?
  }

  /** `result`: `fields.__result__` through the attribute proxy. */
  function ResultOf(w: Workitem): (r: Result<Json>)
    ensures r.Err? <==> "fields" in w.h && !w.h["fields"].JObj?
    ensures "fields" !in w.h ==> r == Ok(JNull)
    ensures "fields" in w.h && w.h["fields"].JObj? ==>
      r == Ok(if "__result__" in w.h["fields"].members then w.h["fields"].members["__result__"] else JNull)
  {
    ProxyGet(FieldsProxy(w), "__result__")
  }

  /** `result = v`: the proxy assigns into the dict it wraps. With no
      "fields" entry that dict is a throw-away `{}`, so nothing changes;
      with a non-dict "fields" the assignment raises TypeError. */
  function SetResult(w: Workitem, v: Json): (r: Result<Workitem>)
    ensures "fields" in w.h && w.h["fields"].JObj? ==>
      && r.Ok? && ResultOf(r.value) == Ok(v)
      && r.value.fei == w.fei
      && r.value.h.Keys == w.h.Keys
      && (forall k :: k in w.h && k != "fields" ==> r.value.h[k] == w.h[k])
      && (forall k :: k in w.h["fields"].members && k != "__result__" ==>
            k in r.value.h["fields"].members && r.value.h["fields"].members[k] == w.h["fields"].members[k])
    ensures "fields" !in w.h ==> r == Ok(w) && ResultOf(w) == Ok(JNull)
    ensures "fields" in w.h && !w.h["fields"].JObj? ==> r == Err(TypeError)
  {
    if "fields" !in w.h then Ok(w)
    else
      match w.h["fields"]
      case JObj(m) => Ok(SetTop(w, "fields", JObj(m["__result__" := v])))
      case _ => Err(TypeError)
  }

  /** `forget`: `params.forget` read through the proxy and tested for
      truth; any exception on the way counts as not forgotten. A dict
      value comes back wrapped in a new proxy, which is always true,
      even for an empty dict. */
  function Forget(w: Workitem): (r: bool)
    ensures r <==>
      && HasParamsDict(w)
      && "forget" in w.h["fields"].members["params"].members
      && var x := w.h["fields"].members["params"].members["forget"];
         x.JObj? || Truthy(x)
  {
    match ProxyGet(ParamsProxy(w), "forget")
    case Ok(x) => x.JObj? || Truthy(x)
    case Err(_) => false
  }

  /** A `forget` entry holding an empty dict counts as forgotten: the proxy
      that wraps it is true although the dict is empty. */
  lemma ForgetEmptyDictCounts(w: Workitem)
    requires w.h == map["fields" := JObj(map["params" := JObj(map["forget" := EmptyObj])])]
    ensures Forget(w) && !Truthy(EmptyObj)
  {
  }

  /** `forget = v`: asserts a bool, then assigns through the params proxy.
      The write only persists when `fields.params` already exists, since
      otherwise the proxy wraps a throw-away `{}`; an existing non-dict
      `params` rejects the assignment with TypeError. */
  function SetForget(w: Workitem, v: Json): (r: Result<Workitem>)
    ensures !v.JBool? ==> r == Err(AssertionError)
    ensures v.JBool? && HasParamsDict(w) ==>
      && r.Ok? && Forget(r.value) == v.b
      && r.value.fei == w.fei
      && r.value.h.Keys == w.h.Keys
      && (forall k :: k in w.h && k != "fields" ==> r.value.h[k] == w.h[k])
      && HasParamsDict(r.value)
      && (forall k :: k in w.h["fields"].members && k != "params" ==>
            k in r.value.h["fields"].members && r.value.h["fields"].members[k] == w.h["fields"].members[k])
      && (forall k :: k in w.h["fields"].members["params"].members && k != "forget" ==>
            k in r.value.h["fields"].members["params"].members
            && r.value.h["fields"].members["params"].members[k] == w.h["fields"].members["params"].members[k])
    ensures v.JBool? && !HasParams(w) ==> r == Ok(w) && !Forget(w)
    ensures v.JBool? && HasParams(w) && !HasParamsDict(w) ==> r == Err(TypeError)
  {
    if !v.JBool? then Err(AssertionError)
    else if HasParams(w) then
      var fields := w.h["fields"].members;
      match fields["params"]
      case JObj(p) => Ok(SetTop(w, "fields", JObj(fields["params" := JObj(p["forget" := v])])))
      case _ => Err(TypeError)
    else Ok(w)
  }

  /* ----------------------------------------------------------------------
     dotted paths
     ---------------------------------------------------------------------- */

  /** `lookup(key)`: walk `_h['fields']` along `key.split('.')`; a missing
      key on the way gives None. A missing "fields" raises KeyError. */
  function Lookup(w: Workitem, key: string): (r: Result<Json>)
    ensures "fields" !in w.h ==> r == Err(KeyError("fields"))
    ensures "fields" in w.h ==>
      (r.Ok? <==> Walk(w.h["fields"], Split(key, PathSep)).Ok?)
  {
    var fields :- Subscript(ToJson(w), "fields");
    var found :- Walk(fields, Split(key, PathSep));
    Ok(if found.Some? then found.value else JNull)
  }

  /** `set_field(key, v)`: write `v` at `key.split('.')` inside
      `_h['fields']`, creating missing levels as `{}`. */
  function SetField(w: Workitem, key: string, v: Json): (r: Result<Workitem>)
    ensures r.Ok? ==> "fields" in w.h && r.value.fei == w.fei && r.value.h.Keys == w.h.Keys
    ensures r.Ok? ==> forall k :: k in w.h && k != "fields" ==> r.value.h[k] == w.h[k]
    ensures "fields" !in w.h ==> r == Err(KeyError("fields"))
  {
    var fields :- Subscript(ToJson(w), "fields");
    var updated :- Put(fields, Split(key, PathSep), v);
    Ok(SetTop(w, "fields", updated))
  }

  /** After `set_field(key, v)` succeeds, `lookup(key)` gives `v`. */
  lemma SetFieldThenLookup(w: Workitem, key: string, v: Json)
    requires SetField(w, key, v).Ok?
    ensures Lookup(SetField(w, key, v).value, key) == Ok(v)
  {
    PutThenWalk(w.h["fields"], Split(key, PathSep), v);
  }

  /** `set_field` succeeds exactly when "fields" exists and every proper
      prefix of the path is absent or a dict; a non-dict on the way makes
      it raise (it does not create a dotted key instead). */
  lemma SetFieldSucceedsIff(w: Workitem, key: string, v: Json)
    ensures SetField(w, key, v).Ok? <==>
      && "fields" in w.h
      && forall i :: 0 <= i < |Split(key, PathSep)| ==>
           Settable(Walk(w.h["fields"], Split(key, PathSep)[..i]))
  {
    if "fields" in w.h {
      var path := Split(key, PathSep);
      PutSucceedsIff(w.h["fields"], path, v);
      assert Subscript(ToJson(w), "fields") == Ok(w.h["fields"]);
      if Put(w.h["fields"], path, v).Ok? {
        assert SetField(w, key, v) == Ok(SetTop(w, "fields", Put(w.h["fields"], path, v).value));
      } else {
        assert SetField(w, key, v).Err?;
        var j :| 0 <= j < |path| && !Settable(Walk(w.h["fields"], path[..j]));
        assert !Settable(Walk(w.h["fields"], Split(key, PathSep)[..j]));
      }
    }
  }

  /** `set_field` changes no path that diverges from its own. */
  lemma SetFieldLeavesOtherPaths(w: Workitem, key: string, v: Json, other: string)
    requires SetField(w, key, v).Ok?
    requires Diverges(Split(key, PathSep), Split(other, PathSep))
    ensures Lookup(SetField(w, key, v).value, other) == Lookup(w, other)
  {
    PutLeavesOtherPaths(w.h["fields"], Split(key, PathSep), v, Split(other, PathSep));
  }

  /** `lookup(key)` gives None as soon as one key of the dotted path is
      missing from the dict the keys before it lead to. */
  lemma LookupFirstMissingKey(w: Workitem, key: string, i: nat, m: map<string, Json>)
    requires "fields" in w.h
    requires var path := Split(key, PathSep);
      i < |path| && Walk(w.h["fields"], path[..i]) == Ok(Some(JObj(m))) && path[i] !in m
    ensures Lookup(w, key) == Ok(JNull)
  {
    WalkStopsAtMissingKey(w.h["fields"], Split(key, PathSep), i, m);
  }

  /** Otherwise each present key steps into its value: one key more on a
      path that leads to a dict looks that key up in the dict. */
  lemma LookupStepsIn(w: Workitem, key: string, k: string, m: map<string, Json>)
    requires "fields" in w.h && PathSep !in k
    requires Walk(w.h["fields"], Split(key, PathSep)) == Ok(Some(JObj(m)))
    ensures Lookup(w, key + [PathSep] + k) == Ok(if k in m then m[k] else JNull)
  {
    SplitSnoc(key, k, PathSep);
    WalkExtends(w.h["fields"], Split(key, PathSep), k, m);
  }

  /** The fields `{"a": {"b": {"c": 5}}}` and `{"a": {"b": 9}}`. */
  const NestedC: Json := JObj(map["a" := JObj(map["b" := JObj(map["c" := JInt(5)])])])
  const FlatB: Json := JObj(map["a" := JObj(map["b" := JInt(9)])])

  lemma SplitExamples()
    ensures Split("a.b.c", PathSep) == ["a", "b", "c"]
    ensures Split("a.b", PathSep) == ["a", "b"]
  {
    SplitCons("a", "b.c", PathSep);
    SplitCons("b", "c", PathSep);
    SplitNoSep("c", PathSep);
    SplitCons("a", "b", PathSep);
    SplitNoSep("b", PathSep);
  }

  /** `set_field("a.b.c", 5)` on empty fields builds the nested dicts. */
  lemma SetFieldBuildsLevels(w: Workitem)
    requires w.h == map["fields" := EmptyObj]
    ensures SetField(w, "a.b.c", JInt(5)) == Ok(SetTop(w, "fields", NestedC))
  {
    SplitExamples();
    var abc: seq<string> := ["a", "b", "c"];
    assert abc[1..] == ["b", "c"] && abc[1..][1..] == ["c"];
    var c := JObj(map["c" := JInt(5)]);
    var bc := JObj(map["b" := c]);
    assert Put(EmptyObj, ["c"], JInt(5)) == Ok(c);
    assert Put(EmptyObj, ["b", "c"], JInt(5)) == Ok(bc);
    assert Put(EmptyObj, abc, JInt(5)) == Ok(NestedC);
  }

  /** `set_field("a.b", 9)` then replaces the dict at "b" wholesale: an
      overwrite, not a merge. */
  lemma SetFieldReplacesSubtree(w: Workitem)
    requires "fields" in w.h && w.h["fields"] == NestedC
    ensures SetField(w, "a.b", JInt(9)) == Ok(SetTop(w, "fields", FlatB))
  {
    SplitExamples();
    var ab: seq<string> := ["a", "b"];
    assert ab[1..] == ["b"];
    var bc := JObj(map["b" := JObj(map["c" := JInt(5)])]);
    assert map["b" := JObj(map["c" := JInt(5)])]["b" := JInt(9)] == map["b" := JInt(9)];
    assert Put(bc, ["b"], JInt(9)) == Ok(JObj(map["b" := JInt(9)]));
    assert map["a" := bc]["a" := JObj(map["b" := JInt(9)])] == map["a" := JObj(map["b" := JInt(9)])];
    assert Put(NestedC, ab, JInt(9)) == Ok(FlatB);
  }

  /** Afterwards `lookup("a.b.c")` meets the integer 9 and raises. */
  lemma LookupBelowScalarRaises(w: Workitem)
    requires "fields" in w.h && w.h["fields"] == FlatB
    ensures Lookup(w, "a.b.c") == Err(TypeError)
  {
    SplitExamples();
    var abc: seq<string> := ["a", "b", "c"];
    assert abc[1..] == ["b", "c"] && abc[1..][1..] == ["c"];
    assert Walk(JInt(9), ["c"]) == Err(TypeError);
    assert Walk(FlatB, abc) == Err(TypeError);
  }

  /** With `fields = {"a": 5}`, `set_field("a.b", 1)` raises TypeError. */
  lemma SetFieldThroughScalarFails(w: Workitem)
    requires w.h == map["fields" := JObj(map["a" := JInt(5)])]
    ensures SetField(w, "a.b", JInt(1)) == Err(TypeError)
  {
    SplitExamples();
    var ab: seq<string> := ["a", "b"];
    assert ab[1..] == ["b"];
  }

  /* ----------------------------------------------------------------------
     the copied identity survives every later mutation
     ---------------------------------------------------------------------- */

  /** The ways code can mutate a workitem after it is built. */
  datatype Update =
    | AssignTop(key: string, value: Json)     // `to_h()[key] = v`, `error`/`trace`/`fields` setters
    | AssignField(path: string, value: Json)  // `set_field(path, v)`
    | AssignResult(value: Json)               // `result = v`
    | AssignForget(value: Json)               // `forget = v`

  function ApplyOne(w: Workitem, u: Update): Result<Workitem>
  {
    match u
    case AssignTop(key, v) => Ok(SetTop(w, key, v))
    case AssignField(path, v) => SetField(w, path, v)
    case AssignResult(v) => SetResult(w, v)
    case AssignForget(v) => SetForget(w, v)
  }

  /** Apply updates in order; the first exception stops the sequence. */
  function Apply(w: Workitem, us: seq<Update>): Result<Workitem>
    decreases |us|
  {
    if |us| == 0 then Ok(w)
    else
      var next :- ApplyOne(w, us[0]);
      Apply(next, us[1..])
  }

  /** No mutation of the message, not even of its "fei" entry, changes the
      identity copied at construction, hence `sid` and `wfid`. */
  lemma {:induction false} UpdatesKeepIdentity(w: Workitem, us: seq<Update>)
    requires Apply(w, us).Ok?
    ensures Apply(w, us).value.fei == w.fei
    ensures Sid(Apply(w, us).value) == Sid(w) && Wfid(Apply(w, us).value) == Wfid(w)
    decreases |us|
  {
    if |us| > 0 {
      var next := ApplyOne(w, us[0]).value;
      UpdatesKeepIdentity(next, us[1..]);
    }
  }

  /** Rewriting "fei" through `to_h()` changes what `fei` returns but not
      `sid`, which reads the copy. */
  lemma FeiPropertyRebuilds(w: Workitem, v: Json)
    ensures FeiOf(SetTop(w, "fei", v)) == Ok(Fei(v))
    ensures Sid(SetTop(w, "fei", v)) == Sid(w)
  {
  }

  /** An update that leaves the top-level "fei" entry alone. */
  predicate KeepsFeiEntry(u: Update)
  {
    !(u.AssignTop? && u.key == "fei")
  }

  /** A decoded workitem that has only been mutated below "fei" duplicates
      to an equal workitem: same message, same identity. */
  lemma {:induction false} DupOfDecoded(j: Json, us: seq<Update>)
    requires FromJson(j).Ok?
    requires Apply(FromJson(j).value, us).Ok?
    requires forall i :: 0 <= i < |us| ==> KeepsFeiEntry(us[i])
    ensures Dup(Apply(FromJson(j).value, us).value) == Ok(Apply(FromJson(j).value, us).value)
  {
    DecodedStaysConsistent(FromJson(j).value, us);
  }

  /** The copied fei equals the message's "fei" entry. */
  predicate Consistent(w: Workitem)
  {
    "fei" in w.h && w.h["fei"] == w.fei.h
  }

  lemma {:induction false} DecodedStaysConsistent(w: Workitem, us: seq<Update>)
    requires Consistent(w)
    requires Apply(w, us).Ok?
    requires forall i :: 0 <= i < |us| ==> KeepsFeiEntry(us[i])
    ensures Consistent(Apply(w, us).value)
    decreases |us|
  {
    if |us| > 0 {
      var next := ApplyOne(w, us[0]).value;
      assert Consistent(next);
      DecodedStaysConsistent(next, us[1..]);
    }
  }
}
