/** FlowExpressionId: the identifier of a position in a process tree,
    carried by every workitem under its "fei" key. The object keeps a deep
    copy of the mapping it was built from; in a value model that copy is
    simply the value `h`, which nothing can change afterwards. */
module FlowExpressionIds {
  import opened Outcomes
  import opened Strings
  import opened JsonValues

  /** Separates the segments of an expression id ('0_5_7'). */
  const ChildSep: char := '_'

  /** Separates the three parts of a storage id. */
  const StorageSep: char := '!'

  /** The keys `direct_child` compares, in the order it compares them. */
  const LineageKeys: seq<string> := ["sub_wfid", "wfid", "engine_id"]

  /** A FlowExpressionId: the copy of the decoded "fei" value it holds. */
  datatype Fei = Fei(h: Json)

  /** `fei[key]`, and the `expid`, `wfid`, `subid` and `engine_id`
      properties, which all subscript the held mapping. */
  function Get(f: Fei, key: string): (r: Result<Json>)
  {
    Subscript(f.h, key)
  }

  /* ----------------------------------------------------------------------
     to_storage_id
     ---------------------------------------------------------------------- */

  /** `to_storage_id()`: expid, then subid when it is truthy and sub_wfid
      otherwise, then wfid, joined by '!'. Keys are read in that order, so
      a missing "subid" raises KeyError even when "sub_wfid" is present. */
  function StorageId(f: Fei): (r: Result<string>)
    ensures r.Ok? <==>
      && f.h.JObj?
      && "expid" in f.h.members
      && "subid" in f.h.members
      && (Truthy(f.h.members["subid"]) || "sub_wfid" in f.h.members)
      && "wfid" in f.h.members
    ensures r.Ok? && Truthy(f.h.members["subid"]) ==>
      r.value == Display(f.h.members["expid"]) + [StorageSep] + Display(f.h.members["subid"])
                 + [StorageSep] + Display(f.h.members["wfid"])
    ensures r.Ok? && !Truthy(f.h.members["subid"]) ==>
      r.value == Display(f.h.members["expid"]) + [StorageSep] + Display(f.h.members["sub_wfid"])
                 + [StorageSep] + Display(f.h.members["wfid"])
  {
    var expid :- Get(f, "expid");
    var subid :- Get(f, "subid");
    var middle :- if Truthy(subid) then Ok(subid) else Get(f, "sub_wfid");
    var wfid :- Get(f, "wfid");
    Ok(Display(expid) + [StorageSep] + Display(middle) + [StorageSep] + Display(wfid))
  }

  /** When the three parts are strings free of '!', the storage id splits
      back into exactly those parts: the key identifies the fei. */
  lemma StorageIdParts(f: Fei, expid: string, middle: string, wfid: string)
    requires Get(f, "expid") == Ok(JStr(expid)) && Get(f, "wfid") == Ok(JStr(wfid))
    requires Get(f, "subid").Ok?
    requires Truthy(Get(f, "subid").value) ==> Get(f, "subid").value == JStr(middle)
    requires !Truthy(Get(f, "subid").value) ==> Get(f, "sub_wfid") == Ok(JStr(middle))
    requires StorageSep !in expid && StorageSep !in middle && StorageSep !in wfid
    ensures StorageId(f).Ok?
    ensures Split(StorageId(f).value, StorageSep) == [expid, middle, wfid]
  {
    var r := StorageId(f).value;
    assert r == expid + [StorageSep] + (middle + [StorageSep] + wfid);
    SplitCons(expid, middle + [StorageSep] + wfid, StorageSep);
    SplitCons(middle, wfid, StorageSep);
    SplitNoSep(wfid, StorageSep);
  }

  /* ----------------------------------------------------------------------
     child_id
     ---------------------------------------------------------------------- */

  /** `child_id` as written: it reads `self._h.expid`, an attribute that no
      decoded value (a dict in particular) has, so it always raises
      AttributeError, which the `except ValueError` does not catch. */
  function ChildIdAsWritten(f: Fei): (r: Result<Option<int>>)
    ensures r == Err(AttributeError("expid"))
  {
    Err(AttributeError("expid"))
  }

  /** `child_id` as its documentation describes it: the last '_' segment of
      the expid read by `int()`, None when that segment is not an integer.
      A missing expid still raises KeyError and a non-string one
      AttributeError (it has no `split`). */
  function ChildId(f: Fei): (r: Result<Option<int>>)
    ensures r.Ok? <==> Get(f, "expid").Ok? && Get(f, "expid").value.JStr?
  {
    var e :- Get(f, "expid");
    if !e.JStr? then Err(AttributeError("split"))
    else
      var segments := Split(e.s, ChildSep);
      Ok(ParseInt(segments[|segments| - 1]))
  }

  /** The child index is the integer written after the last '_'. */
  lemma ChildIdReadsLastSegment(f: Fei, parent: string, n: int)
    requires Get(f, "expid") == Ok(JStr(parent + [ChildSep] + ShowInt(n)))
    ensures ChildId(f) == Ok(Some(n))
  {
    ShowIntChars(n);
    assert ChildSep !in ShowInt(n);
    SplitSnoc(parent, ShowInt(n), ChildSep);
    ParseShowInt(n);
  }

  /** When the last '_' segment holds no digit, `int()` raises ValueError
      and the child index is None. */
  lemma ChildIdNoneWithoutDigits(f: Fei, expid: string)
    requires Get(f, "expid") == Ok(JStr(expid))
    requires var segments := Split(expid, ChildSep);
      forall c :: c in segments[|segments| - 1] ==> !IsDigit(c)
    ensures ChildId(f) == Ok(None)
  {
    var segments := Split(expid, ChildSep);
    ParseIntNeedsDigit(segments[|segments| - 1]);
  }

  /** An expid "abc" has no child index; neither has "0_x". */
  lemma ChildIdNoneExamples()
    ensures ChildId(Fei(JObj(map["expid" := JStr("abc")]))) == Ok(None)
    ensures ChildId(Fei(JObj(map["expid" := JStr("0_x")]))) == Ok(None)
  {
    ChildIdNoneSingle("abc");
    ChildIdNoneAfterParent("0", "x");
    assert "0" + [ChildSep] + "x" == "0_x";
  }

  lemma ChildIdNoneSingle(e: string)
    requires forall c :: c in e ==> !IsDigit(c) && c != ChildSep
    ensures ChildId(Fei(JObj(map["expid" := JStr(e)]))) == Ok(None)
  {
    SplitNoSep(e, ChildSep);
    ChildIdNoneWithoutDigits(Fei(JObj(map["expid" := JStr(e)])), e);
  }

  lemma ChildIdNoneAfterParent(parent: string, last: string)
    requires ChildSep !in parent
    requires forall c :: c in last ==> !IsDigit(c) && c != ChildSep
    ensures ChildId(Fei(JObj(map["expid" := JStr(parent + [ChildSep] + last)]))) == Ok(None)
  {
    SplitCons(parent, last, ChildSep);
    SplitNoSep(last, ChildSep);
    ChildIdNoneWithoutDigits(Fei(JObj(map["expid" := JStr(parent + [ChildSep] + last)])), parent + [ChildSep] + last);
  }

  /** The documented example, '0_5_7' has child index 7, which the code as
      written never delivers. */
  lemma ChildIdExample()
    ensures ChildIdAsWritten(Fei(JObj(map["expid" := JStr("0_5_7")]))).Err?
    ensures ChildId(Fei(JObj(map["expid" := JStr("0_5_7")]))) == Ok(Some(7))
  {
    assert ShowInt(7) == "7" by { assert DigitChar(7) == '7'; }
    assert "0_5" + [ChildSep] + "7" == "0_5_7";
    ChildIdReadsLastSegment(Fei(JObj(map["expid" := JStr("0_5_7")])), "0_5", 7);
  }

  /* ----------------------------------------------------------------------
     direct_child
     ---------------------------------------------------------------------- */

  /** The loop over LineageKeys: false at the first key whose values differ
      (Python `!=`), an exception if either side lacks a key it reaches. */
  function KeysAgree(f: Fei, other: Fei, keys: seq<string>): (r: Result<bool>)
    ensures r == Ok(true) <==> forall i :: 0 <= i < |keys| ==>
      Get(f, keys[i]).Ok? && Get(other, keys[i]).Ok? && PyEq(Get(f, keys[i]).value, Get(other, keys[i]).value)
    decreases |keys|
  {
    if |keys| == 0 then Ok(true)
    else
      var mine :- Get(f, keys[0]);
      var theirs :- Get(other, keys[0]);
      if !PyEq(mine, theirs) then Ok(false) else KeysAgree(f, other, keys[1..])
  }

  /** `'_'.join(reversed(expid.split('_')))`. */
  function ReversedExpid(expid: string): (r: string)
  {
    Join(Reverse(Split(expid, ChildSep)), ChildSep)
  }

  /** `direct_child(other)` as written: after the lineage keys agree, own
      expid must equal other's expid with its segments reversed. */
  function DirectChild(f: Fei, other: Fei): (r: Result<bool>)
    ensures KeysAgree(f, other, LineageKeys) == Ok(false) ==> r == Ok(false)
    ensures KeysAgree(f, other, LineageKeys).Err? ==> r == Err(KeysAgree(f, other, LineageKeys).error)
  {
    var agree :- KeysAgree(f, other, LineageKeys);
    if !agree then Ok(false)
    else
      var theirs :- Get(other, "expid");
      if !theirs.JStr? then Err(AttributeError("split"))
      else
        var mine :- Get(f, "expid");
        Ok(PyEq(JStr(ReversedExpid(theirs.s)), mine))
  }

  /** With agreeing lineage and string expids, `direct_child` holds exactly
      when own segments are other's segments in reverse order. */
  lemma {:induction false} DirectChildSegments(f: Fei, other: Fei, mine: string, theirs: string)
    requires KeysAgree(f, other, LineageKeys) == Ok(true)
    requires Get(f, "expid") == Ok(JStr(mine)) && Get(other, "expid") == Ok(JStr(theirs))
    ensures DirectChild(f, other) == Ok(Split(mine, ChildSep) == Reverse(Split(theirs, ChildSep)))
  {
    var rev := Reverse(Split(theirs, ChildSep));
    assert forall i :: 0 <= i < |rev| ==> ChildSep !in rev[i];
    SplitJoin(rev, ChildSep);
    JoinSplit(mine, ChildSep);
  }

  /** As written the relation is symmetric: reversing is its own inverse,
      so neither fei can be the parent of the other. */
  lemma DirectChildSymmetric(f: Fei, other: Fei, mine: string, theirs: string)
    requires KeysAgree(f, other, LineageKeys) == Ok(true)
    requires KeysAgree(other, f, LineageKeys) == Ok(true)
    requires Get(f, "expid") == Ok(JStr(mine)) && Get(other, "expid") == Ok(JStr(theirs))
    ensures DirectChild(f, other) == DirectChild(other, f)
  {
    DirectChildSegments(f, other, mine, theirs);
    DirectChildSegments(other, f, theirs, mine);
    ReverseReverse(Split(mine, ChildSep));
    ReverseReverse(Split(theirs, ChildSep));
  }

  /** Python `==` is reflexive on decoded JSON. */
  lemma PyEqReflexive(a: Json)
    ensures PyEq(a, a)
  {
    match a
    case JArr(xs) =>
      forall i | 0 <= i < |xs| ensures PyEq(xs[i], xs[i]) {
        PyEqReflexive(xs[i]);
      }
    case JObj(m) =>
      forall k | k in m ensures PyEq(m[k], m[k]) {
        PyEqReflexive(m[k]);
      }
    case _ =>
  }

  /** Every fei whose expid is a single segment counts as its own direct
      child under the code as written. */
  lemma {:induction false} DirectChildOfItself(f: Fei, expid: string)
    requires f.h.JObj? && forall k :: k in LineageKeys ==> k in f.h.members
    requires Get(f, "expid") == Ok(JStr(expid)) && ChildSep !in expid
    ensures DirectChild(f, f) == Ok(true)
  {
    PyEqReflexive(f.h.members["sub_wfid"]);
    PyEqReflexive(f.h.members["wfid"]);
    PyEqReflexive(f.h.members["engine_id"]);
    assert LineageKeys[1..][1..][1..] == [];
    assert KeysAgree(f, f, LineageKeys) == Ok(true);
    DirectChildSegments(f, f, expid, expid);
    SplitNoSep(expid, ChildSep);
  }

  /** Expids with different numbers of segments are never related as
      written: reversal keeps the number of segments. */
  lemma SegmentCountsDiffer(f: Fei, other: Fei, mine: string, theirs: string)
    requires KeysAgree(f, other, LineageKeys) == Ok(true)
    requires Get(f, "expid") == Ok(JStr(mine)) && Get(other, "expid") == Ok(JStr(theirs))
    requires |Split(mine, ChildSep)| != |Split(theirs, ChildSep)|
    ensures DirectChild(f, other) == Ok(false)
  {
    DirectChildSegments(f, other, mine, theirs);
  }

  /** A fei with expid '7_0' and one with expid '0' (same lineage): the code
      says the first is not a direct child of the second, and that '0' is a
      direct child of itself. */
  lemma DirectChildExample()
    ensures DirectChild(Example("7_0"), Example("0")) == Ok(false)
    ensures DirectChild(Example("0"), Example("0")) == Ok(true)
    ensures DirectChild(Example("0"), Example("0_1")) == Ok(false)
  {
    ExampleTwoAgainstOne("7", "0");
    ExampleSelf("0");
    ExampleOneAgainstTwo("0", "1");
    assert "7" + [ChildSep] + "0" == "7_0";
    assert "0" + [ChildSep] + "1" == "0_1";
  }

  lemma ExampleTwoAgainstOne(a: string, b: string)
    requires ChildSep !in a && ChildSep !in b
    ensures DirectChild(Example(a + [ChildSep] + b), Example(b)) == Ok(false)
  {
    SplitCons(a, b, ChildSep);
    SplitNoSep(b, ChildSep);
    ExampleAgrees(a + [ChildSep] + b, b);
    SegmentCountsDiffer(Example(a + [ChildSep] + b), Example(b), a + [ChildSep] + b, b);
  }

  lemma ExampleOneAgainstTwo(a: string, b: string)
    requires ChildSep !in a && ChildSep !in b
    ensures DirectChild(Example(a), Example(a + [ChildSep] + b)) == Ok(false)
  {
    SplitCons(a, b, ChildSep);
    SplitNoSep(a, ChildSep);
    ExampleAgrees(a, a + [ChildSep] + b);
    SegmentCountsDiffer(Example(a), Example(a + [ChildSep] + b), a, a + [ChildSep] + b);
  }

  lemma ExampleSelf(a: string)
    requires ChildSep !in a
    ensures DirectChild(Example(a), Example(a)) == Ok(true)
  {
    DirectChildOfItself(Example(a), a);
  }

  /** A fei of process "W", subprocess "S", engine "engine". */
  function Example(expid: string): Fei
  {
    Fei(JObj(map["expid" := JStr(expid), "wfid" := JStr("W"), "sub_wfid" := JStr("S"),
                 "engine_id" := JStr("engine")]))
  }

  lemma ExampleAgrees(a: string, b: string)
    ensures KeysAgree(Example(a), Example(b), LineageKeys) == Ok(true)
  {
    assert LineageKeys[1..][1..][1..] == [];
  }

  /** `direct_child` as the documentation of child_id implies it: other's
      expid with its last segment dropped is own expid, that is, other sits
      exactly one level below this fei. */
  function DirectChildCorrected(f: Fei, other: Fei): (r: Result<bool>)
    ensures KeysAgree(f, other, LineageKeys) == Ok(false) ==> r == Ok(false)
    ensures KeysAgree(f, other, LineageKeys).Err? ==> r == Err(KeysAgree(f, other, LineageKeys).error)
  {
    var agree :- KeysAgree(f, other, LineageKeys);
    if !agree then Ok(false)
    else
      var theirs :- Get(other, "expid");
      if !theirs.JStr? then Err(AttributeError("split"))
      else
        var mine :- Get(f, "expid");
        Ok(PyEq(JStr(ParentExpid(theirs.s)), mine))
  }

  /** The expid of the parent: every segment but the last. */
  function ParentExpid(expid: string): (r: string)
  {
    var segments := Split(expid, ChildSep);
    Join(segments[..|segments| - 1], ChildSep)
  }

  /** The corrected relation holds exactly when other's expid is own expid
      followed by '_' and one more segment. */
  lemma {:induction false} DirectChildCorrectedOneLevel(f: Fei, other: Fei, mine: string, theirs: string)
    requires KeysAgree(f, other, LineageKeys) == Ok(true)
    requires Get(f, "expid") == Ok(JStr(mine)) && Get(other, "expid") == Ok(JStr(theirs))
    requires mine != ""
    ensures DirectChildCorrected(f, other) == Ok(true) <==>
      exists last :: ChildSep !in last && theirs == mine + [ChildSep] + last
  {
    var segments := Split(theirs, ChildSep);
    var n := |segments|;
    if DirectChildCorrected(f, other) == Ok(true) {
      assert ParentExpid(theirs) == mine;
      assert n >= 2;
      JoinSplit(theirs, ChildSep);
      assert segments == segments[..n - 1] + [segments[n - 1]];
      JoinSnoc(segments[..n - 1], segments[n - 1], ChildSep);
      assert theirs == mine + [ChildSep] + segments[n - 1];
    }
    if exists last :: ChildSep !in last && theirs == mine + [ChildSep] + last {
      var last :| ChildSep !in last && theirs == mine + [ChildSep] + last;
      SplitSnoc(mine, last, ChildSep);
      assert segments[..n - 1] == Split(mine, ChildSep);
      JoinSplit(mine, ChildSep);
    }
  }

  /** Under the corrected relation no fei is its own direct child. */
  lemma DirectChildCorrectedIrreflexive(f: Fei, expid: string)
    requires KeysAgree(f, f, LineageKeys) == Ok(true)
    requires Get(f, "expid") == Ok(JStr(expid)) && expid != ""
    ensures DirectChildCorrected(f, f) == Ok(false)
  {
    DirectChildCorrectedOneLevel(f, f, expid, expid);
    forall last | ChildSep !in last
      ensures expid != expid + [ChildSep] + last
    {
      assert |expid + [ChildSep] + last| > |expid|;
    }
  }
}
