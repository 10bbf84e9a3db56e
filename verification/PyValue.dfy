/**
 * Python values as the GraphQL layer passes them around, and the parameter
 * checks (`dagster.check`) its records apply on construction. A dict is its
 * `items()` sequence, in insertion order.
 */
module PyValue {
  import opened Wrappers

  datatype Value =
    | VNone
    | VBool(b: bool)
    | VInt(i: int)
    | VStr(s: string)
    | VList(items: seq<Value>)
    | VDict(entries: seq<Entry>)

  datatype Entry = Entry(key: Value, val: Value)

  /** The exceptions the records' construction and parsing can raise. */
  datatype PyError =
    | CheckError(param: string)   // a `dagster.check` parameter check failed
    | KeyError(key: string)       // `d[key]` on a dict without `key`
    | NotSubscriptable            // `v[key]` on a value that is not a dict
    | NoGetAttribute              // `v.get(key)` on a value that is not a dict

  /** The value stored under string key `key`, if any. */
  function Lookup(entries: seq<Entry>, key: string): Option<Value> {
    if |entries| == 0 then None
    else if entries[0].key == VStr(key) then Some(entries[0].val)
    else Lookup(entries[1..], key)
  }

  /** The entry at `i` answers a lookup when no earlier entry has the same key. */
  lemma {:induction false} LookupAt(entries: seq<Entry>, i: nat, key: string)
    requires i < |entries| && entries[i].key == VStr(key)
    requires forall j :: 0 <= j < i ==> entries[j].key != VStr(key)
    ensures Lookup(entries, key) == Some(entries[i].val)
  {
    if i > 0 {
      LookupAt(entries[1..], i - 1, key);
    }
  }

  /** Python's `data[key]`. */
  function GetItem(data: Value, key: string): (r: Result<Value, PyError>)
    ensures r.Success? <==> data.VDict? && Lookup(data.entries, key).Some?
    ensures r.Success? ==> r.value == Lookup(data.entries, key).value
    ensures data.VDict? && Lookup(data.entries, key).None? ==> r == Failure(KeyError(key))
    ensures !data.VDict? ==> r == Failure(NotSubscriptable)
  {
    match data
    case VDict(entries) =>
      (match Lookup(entries, key)
       case Some(v) => Success(v)
       case None => Failure(KeyError(key)))
    case _ => Failure(NotSubscriptable)
  }

  /** Python's `data.get(key)`, which answers `None` for a missing key. */
  function GetOrNone(data: Value, key: string): (r: Result<Value, PyError>)
    ensures r.Success? <==> data.VDict?
    ensures data.VDict? && Lookup(data.entries, key).None? ==> r == Success(VNone)
    ensures data.VDict? && Lookup(data.entries, key).Some? ==> r == Success(Lookup(data.entries, key).value)
  {
    match data
    case VDict(entries) => Success(Lookup(entries, key).GetOr(VNone))
    case _ => Failure(NoGetAttribute)
  }

  predicate IsStr(v: Value) {
    v.VStr?
  }

  predicate IsOptStr(v: Value) {
    v.VNone? || v.VStr?
  }

  /** A list whose every item is a string. */
  predicate IsStrList(v: Value) {
    v.VList? && forall i :: 0 <= i < |v.items| ==> v.items[i].VStr?
  }

  predicate IsOptStrList(v: Value) {
    v.VNone? || IsStrList(v)
  }

  /** A dict whose every key is a string. */
  predicate IsStrKeyedDict(v: Value) {
    v.VDict? && forall i :: 0 <= i < |v.entries| ==> v.entries[i].key.VStr?
  }

  /** A dict whose every key and every value is a string. */
  predicate IsStrDict(v: Value) {
    v.VDict? && forall i :: 0 <= i < |v.entries| ==> v.entries[i].key.VStr? && v.entries[i].val.VStr?
  }

  function OptStrValue(o: Option<string>): (v: Value)
    ensures IsOptStr(v) && (o.None? <==> v.VNone?)
    ensures o.Some? ==> v.s == o.value
  {
    match o
    case None => VNone
    case Some(s) => VStr(s)
  }

  /** A list of strings as a Python list. */
  function StrListValue(ss: seq<string>): (v: Value)
    ensures IsStrList(v) && |v.items| == |ss|
    ensures forall i :: 0 <= i < |ss| ==> v.items[i].s == ss[i]
  {
    if |ss| == 0 then VList([])
    else VList(StrListValue(ss[..|ss| - 1]).items + [VStr(ss[|ss| - 1])])
  }

  function OptStrListValue(o: Option<seq<string>>): (v: Value)
    ensures IsOptStrList(v) && (o.None? <==> v.VNone?)
  {
    match o
    case None => VNone
    case Some(ss) => StrListValue(ss)
  }

  /** A string-to-string dict, its pairs in insertion order. */
  function StrDictValue(pairs: seq<(string, string)>): (v: Value)
    ensures IsStrDict(v) && |v.entries| == |pairs|
    ensures forall i :: 0 <= i < |pairs| ==> v.entries[i] == Entry(VStr(pairs[i].0), VStr(pairs[i].1))
  {
    if |pairs| == 0 then VDict([])
    else
      var p := pairs[|pairs| - 1];
      VDict(StrDictValue(pairs[..|pairs| - 1]).entries + [Entry(VStr(p.0), VStr(p.1))])
  }

  /** The strings of a list of strings. */
  function Strings(items: seq<Value>): (ss: seq<string>)
    requires forall i :: 0 <= i < |items| ==> items[i].VStr?
    ensures |ss| == |items|
    ensures forall i :: 0 <= i < |items| ==> items[i] == VStr(ss[i])
  {
    if |items| == 0 then []
    else Strings(items[..|items| - 1]) + [items[|items| - 1].s]
  }

  /** The pairs of a string-to-string dict. */
  function StrPairs(entries: seq<Entry>): (pairs: seq<(string, string)>)
    requires forall i :: 0 <= i < |entries| ==> entries[i].key.VStr? && entries[i].val.VStr?
    ensures |pairs| == |entries|
    ensures forall i :: 0 <= i < |entries| ==> entries[i] == Entry(VStr(pairs[i].0), VStr(pairs[i].1))
  {
    if |entries| == 0 then []
    else
      var e := entries[|entries| - 1];
      StrPairs(entries[..|entries| - 1]) + [(e.key.s, e.val.s)]
  }

  /** `check.str_param`: the string itself, or a check error naming the parameter. */
  function StrParam(v: Value, param: string): (r: Result<string, PyError>)
    ensures r.Success? <==> IsStr(v)
    ensures r.Success? ==> v == VStr(r.value)
    ensures r.Failure? ==> r.error == CheckError(param)
  {
    if v.VStr? then Success(v.s) else Failure(CheckError(param))
  }

  /** `check.opt_str_param`: `None` or a string. */
  function OptStrParam(v: Value, param: string): (r: Result<Option<string>, PyError>)
    ensures r.Success? <==> IsOptStr(v)
    ensures r.Success? ==> OptStrValue(r.value) == v
    ensures r.Failure? ==> r.error == CheckError(param)
  {
    match v
    case VNone => Success(None)
    case VStr(s) => Success(Some(s))
    case _ => Failure(CheckError(param))
  }

  /** `check.list_param(v, param, of_type=str)`: a list of strings. */
  function StrListParam(v: Value, param: string): (r: Result<seq<string>, PyError>)
    ensures r.Success? <==> IsStrList(v)
    ensures r.Success? ==> StrListValue(r.value) == v
    ensures r.Failure? ==> r.error == CheckError(param)
  {
    if IsStrList(v) then
      var ss := Strings(v.items);
      assert StrListValue(ss).items == v.items;
      Success(ss)
    else Failure(CheckError(param))
  }

  /** `check.dict_param(v, param, key_type=str, value_type=str)`: a string-to-string dict. */
  function StrDictParam(v: Value, param: string): (r: Result<seq<(string, string)>, PyError>)
    ensures r.Success? <==> IsStrDict(v)
    ensures r.Success? ==> StrDictValue(r.value) == v
    ensures r.Failure? ==> r.error == CheckError(param)
  {
    if IsStrDict(v) then
      var pairs := StrPairs(v.entries);
      assert StrDictValue(pairs).entries == v.entries;
      Success(pairs)
    else Failure(CheckError(param))
  }

  /** A list of strings, as a Python list, reads back as itself. */
  lemma StringsOfStrList(ss: seq<string>)
    ensures Strings(StrListValue(ss).items) == ss
  {
  }
}
