/** Transaction events (`events.rs`): one view over the event sources a transaction result
    can carry, with type filters that also accept the `wasm-` prefixed type, and
    first/last lookups of events and attributes. */
module Events {
  import opened Wrappers

  datatype Attribute = Attribute(key: string, value: string)

  /** An event of any source; every source has a type string and a list of attributes. */
  datatype Event = Event(ty: string, attributes: seq<Attribute>)

  datatype Log = Log(events: seq<Event>)

  datatype TxResponse = TxResponse(logs: seq<Log>, events: seq<Event>)

  /** `CosmosTxEvents`; the borrowed and owned variants of a source are one case here. */
  datatype CosmosTxEvents =
    | TxResponseEvents(resp: TxResponse)
    | Tendermint2List(list: seq<Event>)
    | CosmWasmList(list: seq<Event>)

  // ---------------------------------------------------------------------------
  // Iterator adapters

  /** `Iterator::filter_map`, order preserved. */
  function FilterMap<T, U>(s: seq<T>, f: T -> Option<U>): (r: seq<U>)
    ensures |r| <= |s|
    decreases |s|
  {
    if |s| == 0 then []
    else match f(s[0])
      case Some(u) => [u] + FilterMap(s[1..], f)
      case None => FilterMap(s[1..], f)
  }

  function Last<T>(s: seq<T>): T
    requires |s| > 0
  {
    s[|s| - 1]
  }

  /** Index `i` is the first element `f` keeps. */
  ghost predicate IsFirstHit<T, U>(s: seq<T>, f: T -> Option<U>, i: int) {
    0 <= i < |s| && f(s[i]).Some? && forall j :: 0 <= j < i ==> f(s[j]).None?
  }

  /** Index `i` is the last element `f` keeps. */
  ghost predicate IsLastHit<T, U>(s: seq<T>, f: T -> Option<U>, i: int) {
    0 <= i < |s| && f(s[i]).Some? && forall j :: i < j < |s| ==> f(s[j]).None?
  }

  ghost predicate AnyHit<T, U>(s: seq<T>, f: T -> Option<U>) {
    exists i :: 0 <= i < |s| && f(s[i]).Some?
  }

  lemma {:induction false} FilterMapAppend<T, U>(a: seq<T>, b: seq<T>, f: T -> Option<U>)
    ensures FilterMap(a + b, f) == FilterMap(a, f) + FilterMap(b, f)
    decreases |a|
  {
    if |a| == 0 {
      assert a + b == b;
    } else {
      assert (a + b)[0] == a[0];
      assert (a + b)[1..] == a[1..] + b;
      FilterMapAppend(a[1..], b, f);
    }
  }

  /** The result is empty exactly when nothing is kept; its head comes from the first hit. */
  lemma {:induction false} FilterMapFirst<T, U>(s: seq<T>, f: T -> Option<U>)
    ensures |FilterMap(s, f)| > 0 <==> AnyHit(s, f)
    ensures |FilterMap(s, f)| > 0 ==>
      exists i :: IsFirstHit(s, f, i) && FilterMap(s, f)[0] == f(s[i]).value
    decreases |s|
  {
    if |s| > 0 {
      FilterMapFirst(s[1..], f);
      if f(s[0]).None? {
        if AnyHit(s, f) {
          var i :| 0 <= i < |s| && f(s[i]).Some?;
          assert f(s[1..][i - 1]).Some?;
        }
        if AnyHit(s[1..], f) {
          var i :| 0 <= i < |s[1..]| && f(s[1..][i]).Some?;
          assert f(s[i + 1]).Some?;
        }
        if |FilterMap(s, f)| > 0 {
          var i :| IsFirstHit(s[1..], f, i) && FilterMap(s[1..], f)[0] == f(s[1..][i]).value;
          assert IsFirstHit(s, f, i + 1);
        }
      } else {
        assert IsFirstHit(s, f, 0);
      }
    }
  }

  /** Its last element comes from the last hit. */
  lemma {:induction false} FilterMapLast<T, U>(s: seq<T>, f: T -> Option<U>)
    ensures |FilterMap(s, f)| > 0 <==> AnyHit(s, f)
    ensures |FilterMap(s, f)| > 0 ==>
      exists i :: IsLastHit(s, f, i) && Last(FilterMap(s, f)) == f(s[i]).value
    decreases |s|
  {
    FilterMapFirst(s, f);
    if |s| > 0 {
      var init, last := s[..|s| - 1], s[|s| - 1];
      assert s == init + [last];
      FilterMapAppend(init, [last], f);
      FilterMapLast(init, f);
      if f(last).Some? {
        assert IsLastHit(s, f, |s| - 1);
      } else if |FilterMap(s, f)| > 0 {
        assert FilterMap([last], f) == [];
        assert FilterMap(s, f) == FilterMap(init, f);
        var i :| IsLastHit(init, f, i) && Last(FilterMap(init, f)) == f(init[i]).value;
        assert IsLastHit(s, f, i);
      }
    }
  }

  /** What is kept is exactly what `f` produces for some element. */
  lemma {:induction false} FilterMapMembership<T, U>(s: seq<T>, f: T -> Option<U>, u: U)
    ensures u in FilterMap(s, f) <==> exists i :: 0 <= i < |s| && f(s[i]) == Some(u)
    decreases |s|
  {
    if |s| > 0 {
      FilterMapMembership(s[1..], f, u);
      if exists i :: 0 <= i < |s| && f(s[i]) == Some(u) {
        var i :| 0 <= i < |s| && f(s[i]) == Some(u);
        if i > 0 {
          assert f(s[1..][i - 1]) == Some(u);
        }
      }
      if exists i :: 0 <= i < |s[1..]| && f(s[1..][i]) == Some(u) {
        var i :| 0 <= i < |s[1..]| && f(s[1..][i]) == Some(u);
        assert f(s[i + 1]) == Some(u);
      }
    }
  }

  /** `r` lists, in order, `f`'s value at the strictly increasing positions `idx` of `s`,
      and every position `f` keeps is among them: each kept element once, in place. */
  ghost predicate PicksAt<T, U>(s: seq<T>, f: T -> Option<U>, r: seq<U>, idx: seq<int>) {
    && |idx| == |r|
    && (forall k :: 0 <= k < |idx| ==> 0 <= idx[k] < |s| && f(s[idx[k]]) == Some(r[k]))
    && (forall k, l :: 0 <= k < l < |idx| ==> idx[k] < idx[l])
    && (forall i :: 0 <= i < |s| && f(s[i]).Some? ==> i in idx)
  }

  /** `r` is `s` filtered and mapped by `f`, stated by positions rather than by recursion. */
  ghost predicate IsFilterMapOf<T, U>(s: seq<T>, f: T -> Option<U>, r: seq<U>) {
    exists idx :: PicksAt(s, f, r, idx)
  }

  function Shift(idx: seq<int>, d: int): (r: seq<int>)
    ensures |r| == |idx| && forall k :: 0 <= k < |idx| ==> r[k] == idx[k] + d
  {
    seq(|idx|, k requires 0 <= k < |idx| => idx[k] + d)
  }

  lemma {:induction false} PicksConsKeep<T, U>(s: seq<T>, f: T -> Option<U>, rt: seq<U>, idx: seq<int>)
    requires |s| > 0 && f(s[0]).Some? && PicksAt(s[1..], f, rt, idx)
    ensures PicksAt(s, f, [f(s[0]).value] + rt, [0] + Shift(idx, 1))
  {
    var t, r, sh := s[1..], [f(s[0]).value] + rt, Shift(idx, 1);
    var idx2 := [0] + sh;
    forall k | 0 <= k < |idx2| ensures 0 <= idx2[k] < |s| && f(s[idx2[k]]) == Some(r[k]) {
      if k > 0 {
        assert idx2[k] == idx[k - 1] + 1 && s[idx2[k]] == t[idx[k - 1]] && r[k] == rt[k - 1];
      }
    }
    forall k, l | 0 <= k < l < |idx2| ensures idx2[k] < idx2[l] {
      if k > 0 {
        assert idx2[k] == idx[k - 1] + 1 && idx2[l] == idx[l - 1] + 1;
      } else {
        assert 0 <= idx[l - 1];
      }
    }
    forall i | 0 <= i < |s| && f(s[i]).Some? ensures i in idx2 {
      if i > 0 {
        assert f(t[i - 1]).Some?;
        var k :| 0 <= k < |idx| && idx[k] == i - 1;
        assert idx2[k + 1] == i;
      } else {
        assert idx2[0] == 0;
      }
    }
  }

  lemma {:induction false} PicksConsSkip<T, U>(s: seq<T>, f: T -> Option<U>, r: seq<U>, idx: seq<int>)
    requires |s| > 0 && f(s[0]).None? && PicksAt(s[1..], f, r, idx)
    ensures PicksAt(s, f, r, Shift(idx, 1))
  {
    var t, sh := s[1..], Shift(idx, 1);
    forall k | 0 <= k < |sh| ensures 0 <= sh[k] < |s| && f(s[sh[k]]) == Some(r[k]) {
      assert s[sh[k]] == t[idx[k]];
    }
    forall i | 0 <= i < |s| && f(s[i]).Some? ensures i in sh {
      assert f(t[i - 1]).Some?;
      var k :| 0 <= k < |idx| && idx[k] == i - 1;
      assert sh[k] == i;
    }
  }

  /** `FilterMap` keeps what `f` keeps, in order, once each. */
  lemma {:induction false} FilterMapPicks<T, U>(s: seq<T>, f: T -> Option<U>)
    ensures IsFilterMapOf(s, f, FilterMap(s, f))
    decreases |s|
  {
    if |s| == 0 {
      assert PicksAt(s, f, [], []);
    } else {
      FilterMapPicks(s[1..], f);
      var idx :| PicksAt(s[1..], f, FilterMap(s[1..], f), idx);
      if f(s[0]).Some? {
        PicksConsKeep(s, f, FilterMap(s[1..], f), idx);
      } else {
        PicksConsSkip(s, f, FilterMap(s[1..], f), idx);
      }
    }
  }

  /** Names the head, so that facts about every element reach it. */
  lemma HeadIsElement(xs: seq<int>)
    ensures |xs| > 0 ==> xs[0] in xs
  {
  }

  lemma {:induction false} PicksTailKeep<T, U>(s: seq<T>, f: T -> Option<U>, r: seq<U>, idx: seq<int>)
    requires |s| > 0 && f(s[0]).Some? && PicksAt(s, f, r, idx)
    ensures |r| > 0 && r[0] == f(s[0]).value && PicksAt(s[1..], f, r[1..], Shift(idx[1..], -1))
  {
    var t, idx2 := s[1..], Shift(idx[1..], -1);
    assert 0 in idx;
    var j :| 0 <= j < |idx| && idx[j] == 0;
    HeadIsElement(idx);
    assert idx[0] == 0;
    forall k | 0 <= k < |idx2| ensures 0 <= idx2[k] < |t| && f(t[idx2[k]]) == Some(r[1..][k]) {
      assert idx[0] < idx[k + 1];
      assert t[idx2[k]] == s[idx[k + 1]];
    }
    forall k, l | 0 <= k < l < |idx2| ensures idx2[k] < idx2[l] {
      assert idx[k + 1] < idx[l + 1];
    }
    forall i | 0 <= i < |t| && f(t[i]).Some? ensures i in idx2 {
      assert f(s[i + 1]).Some?;
      var m :| 0 <= m < |idx| && idx[m] == i + 1;
      assert m > 0 && idx2[m - 1] == i;
    }
  }

  lemma {:induction false} PicksTailSkip<T, U>(s: seq<T>, f: T -> Option<U>, r: seq<U>, idx: seq<int>)
    requires |s| > 0 && f(s[0]).None? && PicksAt(s, f, r, idx)
    ensures PicksAt(s[1..], f, r, Shift(idx, -1))
  {
    var t, idx2 := s[1..], Shift(idx, -1);
    forall k | 0 <= k < |idx2| ensures 0 <= idx2[k] < |t| && f(t[idx2[k]]) == Some(r[k]) {
      assert idx[k] != 0;
      assert t[idx2[k]] == s[idx[k]];
    }
    forall i | 0 <= i < |t| && f(t[i]).Some? ensures i in idx2 {
      assert f(s[i + 1]).Some?;
      var m :| 0 <= m < |idx| && idx[m] == i + 1;
      assert idx2[m] == i;
    }
  }

  /** The positional description determines the result: it can only be `FilterMap`. */
  lemma {:induction false} FilterMapOfUnique<T, U>(s: seq<T>, f: T -> Option<U>, r: seq<U>)
    requires IsFilterMapOf(s, f, r)
    ensures r == FilterMap(s, f)
    decreases |s|
  {
    var idx :| PicksAt(s, f, r, idx);
    if |s| == 0 {
      HeadIsElement(idx);
    } else if f(s[0]).Some? {
      PicksTailKeep(s, f, r, idx);
      FilterMapOfUnique(s[1..], f, r[1..]);
      assert r == [r[0]] + r[1..];
    } else {
      PicksTailSkip(s, f, r, idx);
      FilterMapOfUnique(s[1..], f, r);
    }
  }

  // ---------------------------------------------------------------------------
  // Events and attributes

  /** `Event::is_type`: the exact type, or the same type with the `wasm-` prefix. */
  predicate IsType(e: Event, ty: string) {
    e.ty == ty || e.ty == "wasm-" + ty
  }

  predicate HasKey(e: Event, key: string) {
    exists i :: 0 <= i < |e.attributes| && e.attributes[i].key == key
  }

  /** `attributes().find(|a| a.key() == key)`. */
  function FindAttr(attrs: seq<Attribute>, key: string): (r: Option<Attribute>)
    ensures r.Some? <==> exists i :: 0 <= i < |attrs| && attrs[i].key == key
    ensures r.Some? ==> r.value.key == key
    ensures r.Some? ==> exists i :: (0 <= i < |attrs| && attrs[i] == r.value
      && forall j :: 0 <= j < i ==> attrs[j].key != key)
    decreases |attrs|
  {
    if |attrs| == 0 then None
    else if attrs[0].key == key then Some(attrs[0])
    else
      var r := FindAttr(attrs[1..], key);
      assert forall i :: 1 <= i < |attrs| ==> attrs[i] == attrs[1..][i - 1];
      if r.Some? then
        var i :| 0 <= i < |attrs[1..]| && attrs[1..][i] == r.value
          && forall j :: 0 <= j < i ==> attrs[1..][j].key != key;
        assert attrs[i + 1] == r.value;
        r
      else
        r
  }

  function FlattenLogs(logs: seq<Log>): (r: seq<Event>)
    ensures |logs| == 1 ==> r == logs[0].events
    decreases |logs|
  {
    if |logs| == 0 then [] else logs[0].events + FlattenLogs(logs[1..])
  }

  /** `events_iter`: a transaction response yields its logs' events when it has more than
      one log, else its top-level events; the event lists yield themselves. */
  function EventsIter(src: CosmosTxEvents): (r: seq<Event>)
    ensures src.TxResponseEvents? && |src.resp.logs| > 1 ==> r == FlattenLogs(src.resp.logs)
    ensures src.TxResponseEvents? && |src.resp.logs| <= 1 ==> r == src.resp.events
    ensures !src.TxResponseEvents? ==> r == src.list
  {
    match src
    case TxResponseEvents(resp) => if |resp.logs| > 1 then FlattenLogs(resp.logs) else resp.events
    case Tendermint2List(list) => list
    case CosmWasmList(list) => list
  }

  function KeepType(ty: string): Event -> Option<Event> {
    e => if IsType(e, ty) then Some(e) else None
  }

  function KeepTypeWithKey(ty: string, key: string): Event -> Option<Event> {
    e => if IsType(e, ty) && FindAttr(e.attributes, key).Some? then Some(e) else None
  }

  function FirstAttrOfType(ty: string, key: string): Event -> Option<Attribute> {
    e => if IsType(e, ty) then FindAttr(e.attributes, key) else None
  }

  function MapFirstAttrOfType<T>(ty: string, key: string, f: Attribute -> Option<T>): Event -> Option<T> {
    e => if IsType(e, ty) then (match FindAttr(e.attributes, key) case Some(a) => f(a) case None => None) else None
  }

  /** `filter_events_by_type`. */
  function FilterEventsByType(src: CosmosTxEvents, ty: string): (r: seq<Event>)
    ensures forall e :: e in r <==> e in EventsIter(src) && IsType(e, ty)
    ensures IsFilterMapOf(EventsIter(src), KeepType(ty), r)
  {
    var es := EventsIter(src);
    FilterMapPicks(es, KeepType(ty));
    forall e ensures e in FilterMap(es, KeepType(ty)) <==> e in es && IsType(e, ty) {
      FilterMapMembership(es, KeepType(ty), e);
    }
    FilterMap(es, KeepType(ty))
  }

  /** `filter_events_by_attr_key`: events of the type that have an attribute with the key. */
  function FilterEventsByAttrKey(src: CosmosTxEvents, ty: string, key: string): (r: seq<Event>)
    ensures forall e :: e in r <==> e in EventsIter(src) && IsType(e, ty) && HasKey(e, key)
    ensures IsFilterMapOf(EventsIter(src), KeepTypeWithKey(ty, key), r)
  {
    var es := EventsIter(src);
    FilterMapPicks(es, KeepTypeWithKey(ty, key));
    forall e ensures e in FilterMap(es, KeepTypeWithKey(ty, key)) <==> e in es && IsType(e, ty) && HasKey(e, key) {
      FilterMapMembership(es, KeepTypeWithKey(ty, key), e);
    }
    FilterMap(es, KeepTypeWithKey(ty, key))
  }

  /** `filter_attrs`: from each event of the type, its first attribute with the key. */
  function FilterAttrs(src: CosmosTxEvents, ty: string, key: string): (r: seq<Attribute>)
    ensures forall a :: a in r ==> a.key == key
    ensures IsFilterMapOf(EventsIter(src), FirstAttrOfType(ty, key), r)
  {
    var es := EventsIter(src);
    FilterMapPicks(es, FirstAttrOfType(ty, key));
    forall a | a in FilterMap(es, FirstAttrOfType(ty, key)) ensures a.key == key {
      FilterMapMembership(es, FirstAttrOfType(ty, key), a);
    }
    FilterMap(es, FirstAttrOfType(ty, key))
  }

  /** `filter_map_attrs`: `f` applied to the first attribute with the key of each event of
      the type; an event whose first such attribute `f` rejects contributes nothing. */
  function FilterMapAttrs<T(!new)>(src: CosmosTxEvents, ty: string, key: string, f: Attribute -> Option<T>)
    : (r: seq<T>)
    ensures forall u :: u in r <==> exists i :: (0 <= i < |EventsIter(src)|
      && MapFirstAttrOfType(ty, key, f)(EventsIter(src)[i]) == Some(u))
    ensures IsFilterMapOf(EventsIter(src), MapFirstAttrOfType(ty, key, f), r)
  {
    var es := EventsIter(src);
    FilterMapPicks(es, MapFirstAttrOfType(ty, key, f));
    forall u ensures u in FilterMap(es, MapFirstAttrOfType(ty, key, f))
      <==> exists i :: 0 <= i < |es| && MapFirstAttrOfType(ty, key, f)(es[i]) == Some(u)
    {
      FilterMapMembership(es, MapFirstAttrOfType(ty, key, f), u);
    }
    FilterMap(es, MapFirstAttrOfType(ty, key, f))
  }

  /** The attributes `filter_attrs` yields are, one for one and in order, the first
      attribute with the key of each event `filter_events_by_attr_key` yields. */
  lemma {:induction false} FilterAttrsMatchEvents(es: seq<Event>, ty: string, key: string)
    ensures |FilterMap(es, FirstAttrOfType(ty, key))| == |FilterMap(es, KeepTypeWithKey(ty, key))|
    ensures forall i :: 0 <= i < |FilterMap(es, FirstAttrOfType(ty, key))| ==>
      FindAttr(FilterMap(es, KeepTypeWithKey(ty, key))[i].attributes, key)
        == Some(FilterMap(es, FirstAttrOfType(ty, key))[i])
    decreases |es|
  {
    if |es| > 0 {
      FilterAttrsMatchEvents(es[1..], ty, key);
    }
  }

  /** `event_first_by_type`: the first event of the type. */
  function EventFirstByType(src: CosmosTxEvents, ty: string): (r: Result<Event, string>)
    ensures r.Ok? <==> exists e :: e in EventsIter(src) && IsType(e, ty)
    ensures r.Ok? ==> exists i :: IsFirstHit(EventsIter(src), KeepType(ty), i) && EventsIter(src)[i] == r.value
    ensures r.Err? ==> r.error == "couldn't find event for " + ty
  {
    var es := FilterEventsByType(src, ty);
    FilterMapFirst(EventsIter(src), KeepType(ty));
    if |es| == 0 then Err("couldn't find event for " + ty) else Ok(es[0])
  }

  /** `event_last_by_type`: the last event of the type. */
  function EventLastByType(src: CosmosTxEvents, ty: string): (r: Result<Event, string>)
    ensures r.Ok? <==> exists e :: e in EventsIter(src) && IsType(e, ty)
    ensures r.Ok? ==> exists i :: IsLastHit(EventsIter(src), KeepType(ty), i) && EventsIter(src)[i] == r.value
    ensures r.Err? ==> r.error == "couldn't find event for " + ty
  {
    var es := FilterEventsByType(src, ty);
    FilterMapLast(EventsIter(src), KeepType(ty));
    if |es| == 0 then Err("couldn't find event for " + ty) else Ok(Last(es))
  }

  /** `event_first_by_attr_key`: the first event of the type carrying the key. */
  function EventFirstByAttrKey(src: CosmosTxEvents, ty: string, key: string): (r: Result<Event, string>)
    ensures r.Ok? <==> exists e :: e in EventsIter(src) && IsType(e, ty) && HasKey(e, key)
    ensures r.Ok? ==> exists i :: (IsFirstHit(EventsIter(src), KeepTypeWithKey(ty, key), i)
      && EventsIter(src)[i] == r.value)
    ensures r.Err? ==> r.error == "couldn't find event for " + ty + "." + key
  {
    var es := FilterEventsByAttrKey(src, ty, key);
    FilterMapFirst(EventsIter(src), KeepTypeWithKey(ty, key));
    if |es| == 0 then Err("couldn't find event for " + ty + "." + key) else Ok(es[0])
  }

  /** `event_last_by_attr_key`: the last event of the type carrying the key. */
  function EventLastByAttrKey(src: CosmosTxEvents, ty: string, key: string): (r: Result<Event, string>)
    ensures r.Ok? <==> exists e :: e in EventsIter(src) && IsType(e, ty) && HasKey(e, key)
    ensures r.Ok? ==> exists i :: (IsLastHit(EventsIter(src), KeepTypeWithKey(ty, key), i)
      && EventsIter(src)[i] == r.value)
    ensures r.Err? ==> r.error == "couldn't find event for " + ty + "." + key
  {
    var es := FilterEventsByAttrKey(src, ty, key);
    FilterMapLast(EventsIter(src), KeepTypeWithKey(ty, key));
    if |es| == 0 then Err("couldn't find event for " + ty + "." + key) else Ok(Last(es))
  }

  /** Some event of the type carries the key exactly when `filter_attrs` yields something. */
  lemma {:induction false} AttrFoundIff(es: seq<Event>, ty: string, key: string)
    ensures |FilterMap(es, FirstAttrOfType(ty, key))| > 0
      <==> exists e :: e in es && IsType(e, ty) && HasKey(e, key)
  {
    FilterAttrsMatchEvents(es, ty, key);
    FilterMapFirst(es, KeepTypeWithKey(ty, key));
    if exists e :: e in es && IsType(e, ty) && HasKey(e, key) {
      var e :| e in es && IsType(e, ty) && HasKey(e, key);
      var i :| 0 <= i < |es| && es[i] == e;
      assert KeepTypeWithKey(ty, key)(es[i]).Some?;
    }
    if AnyHit(es, KeepTypeWithKey(ty, key)) {
      var i :| 0 <= i < |es| && KeepTypeWithKey(ty, key)(es[i]).Some?;
      assert es[i] in es && IsType(es[i], ty) && HasKey(es[i], key);
    }
  }

  /** The first attribute `filter_attrs` yields belongs to the first event of the type with the key. */
  lemma {:induction false} AttrFirstHit(es: seq<Event>, ty: string, key: string)
    requires |FilterMap(es, FirstAttrOfType(ty, key))| > 0
    ensures exists i :: (IsFirstHit(es, KeepTypeWithKey(ty, key), i)
      && FindAttr(es[i].attributes, key) == Some(FilterMap(es, FirstAttrOfType(ty, key))[0]))
  {
    FilterAttrsMatchEvents(es, ty, key);
    FilterMapFirst(es, KeepTypeWithKey(ty, key));
  }

  /** The last attribute `filter_attrs` yields belongs to the last event of the type with the key. */
  lemma {:induction false} AttrLastHit(es: seq<Event>, ty: string, key: string)
    requires |FilterMap(es, FirstAttrOfType(ty, key))| > 0
    ensures exists i :: (IsLastHit(es, KeepTypeWithKey(ty, key), i)
      && FindAttr(es[i].attributes, key) == Some(Last(FilterMap(es, FirstAttrOfType(ty, key)))))
  {
    FilterAttrsMatchEvents(es, ty, key);
    FilterMapLast(es, KeepTypeWithKey(ty, key));
  }

  /** `attr_first`: the key's first attribute in the first event of the type that has it. */
  function AttrFirst(src: CosmosTxEvents, ty: string, key: string): (r: Result<Attribute, string>)
    ensures r.Ok? <==> exists e :: e in EventsIter(src) && IsType(e, ty) && HasKey(e, key)
    ensures r.Ok? ==> exists i :: (IsFirstHit(EventsIter(src), KeepTypeWithKey(ty, key), i)
      && FindAttr(EventsIter(src)[i].attributes, key) == Some(r.value))
    ensures r.Err? ==> r.error == "couldn't find event attribute for " + ty + "." + key
  {
    var attrs := FilterAttrs(src, ty, key);
    AttrFoundIff(EventsIter(src), ty, key);
    if |attrs| == 0 then Err("couldn't find event attribute for " + ty + "." + key)
    else AttrFirstHit(EventsIter(src), ty, key); Ok(attrs[0])
  }

  /** `attr_last`: the key's first attribute in the last event of the type that has it. */
  function AttrLast(src: CosmosTxEvents, ty: string, key: string): (r: Result<Attribute, string>)
    ensures r.Ok? <==> exists e :: e in EventsIter(src) && IsType(e, ty) && HasKey(e, key)
    ensures r.Ok? ==> exists i :: (IsLastHit(EventsIter(src), KeepTypeWithKey(ty, key), i)
      && FindAttr(EventsIter(src)[i].attributes, key) == Some(r.value))
    ensures r.Err? ==> r.error == "couldn't find event attribute for " + ty + "." + key
  {
    var attrs := FilterAttrs(src, ty, key);
    AttrFoundIff(EventsIter(src), ty, key);
    if |attrs| == 0 then Err("couldn't find event attribute for " + ty + "." + key)
    else AttrLastHit(EventsIter(src), ty, key); Ok(Last(attrs))
  }

  /** `map_attr_first`: `f` of the first event (of the type, with the key) whose first such
      attribute `f` accepts. */
  function MapAttrFirst<T(!new)>(src: CosmosTxEvents, ty: string, key: string, f: Attribute -> Option<T>)
    : (r: Result<T, string>)
    ensures r.Ok? <==> AnyHit(EventsIter(src), MapFirstAttrOfType(ty, key, f))
    ensures r.Ok? ==> exists i :: (IsFirstHit(EventsIter(src), MapFirstAttrOfType(ty, key, f), i)
      && MapFirstAttrOfType(ty, key, f)(EventsIter(src)[i]) == Some(r.value))
    ensures r.Err? ==> r.error == "couldn't find attribute for " + ty + "." + key
  {
    var us := FilterMapAttrs(src, ty, key, f);
    FilterMapFirst(EventsIter(src), MapFirstAttrOfType(ty, key, f));
    if |us| == 0 then Err("couldn't find attribute for " + ty + "." + key) else Ok(us[0])
  }

  /** `map_attr_last`: as `map_attr_first`, from the end. */
  function MapAttrLast<T(!new)>(src: CosmosTxEvents, ty: string, key: string, f: Attribute -> Option<T>)
    : (r: Result<T, string>)
    ensures r.Ok? <==> AnyHit(EventsIter(src), MapFirstAttrOfType(ty, key, f))
    ensures r.Ok? ==> exists i :: (IsLastHit(EventsIter(src), MapFirstAttrOfType(ty, key, f), i)
      && MapFirstAttrOfType(ty, key, f)(EventsIter(src)[i]) == Some(r.value))
    ensures r.Err? ==> r.error == "couldn't find attribute for " + ty + "." + key
  {
    var us := FilterMapAttrs(src, ty, key, f);
    FilterMapLast(EventsIter(src), MapFirstAttrOfType(ty, key, f));
    if |us| == 0 then Err("couldn't find attribute for " + ty + "." + key) else Ok(Last(us))
  }

  /** `cosmwasm_std::Event` and `cosmwasm_std::Attribute`. */
  datatype CwAttribute = CwAttribute(key: string, value: string)
  datatype CwEvent = CwEvent(ty: string, attributes: seq<CwAttribute>)

  /** `From<Event> for cosmwasm_std::Event`: the type and every attribute, in order. */
  function ToCwEvent(e: Event): (r: CwEvent)
    ensures r.ty == e.ty && |r.attributes| == |e.attributes|
    ensures forall i :: 0 <= i < |e.attributes| ==>
      r.attributes[i].key == e.attributes[i].key && r.attributes[i].value == e.attributes[i].value
  {
    CwEvent(e.ty, seq(|e.attributes|, i requires 0 <= i < |e.attributes| =>
      CwAttribute(e.attributes[i].key, e.attributes[i].value)))
  }
}
