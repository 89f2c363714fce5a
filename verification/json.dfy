/** Values as Python's `json.loads` hands them to the assistant, and the few
    Python operations the core applies to them: `dict.get`, truthiness,
    iteration and `str()` (used by every f-string notification). */
module Json {
  import opened Wrappers

  /** A parsed JSON value. An object keeps its key/value pairs in text order. */
  datatype Json =
    | JNull
    | JBool(b: bool)
    | JNum(n: int)
    | JStr(s: string)
    | JArr(items: seq<Json>)
    | JObj(fields: seq<(string, Json)>)

  /** The index of the last of the first `n` pairs that has `key`, or -1 when
      none has it. When the text repeats a key, `json.loads` keeps the value of
      this last pair. */
  function LastWith(fields: seq<(string, Json)>, key: string, n: nat): (j: int)
    requires n <= |fields|
    ensures -1 <= j < n
    ensures j >= 0 ==> fields[j].0 == key
    decreases n
  {
    if n == 0 then -1
    else if fields[n - 1].0 == key then n - 1
    else LastWith(fields, key, n - 1)
  }

  /** No pair after the one `LastWith` finds has the key. */
  lemma {:induction false} LastWithIsLast(fields: seq<(string, Json)>, key: string, n: nat)
    requires n <= |fields|
    ensures forall i :: LastWith(fields, key, n) < i < n ==> fields[i].0 != key
    decreases n
  {
    if n > 0 && fields[n - 1].0 != key {
      LastWithIsLast(fields, key, n - 1);
    }
  }

  /** `dict.get(key)` as a lookup that may find nothing. */
  function Lookup(fields: seq<(string, Json)>, key: string): Option<Json> {
    var j := LastWith(fields, key, |fields|);
    if j < 0 then None else Some(fields[j].1)
  }

  /** The lookup finds nothing exactly when no pair has the key, and otherwise
      the value of the last pair that has it. */
  lemma LookupFindsLastBinding(fields: seq<(string, Json)>, key: string)
    ensures Lookup(fields, key).None? <==> forall i :: 0 <= i < |fields| ==> fields[i].0 != key
    ensures Lookup(fields, key).Some? ==>
              exists i :: 0 <= i < |fields| && fields[i] == (key, Lookup(fields, key).value)
                          && forall j :: i < j < |fields| ==> fields[j].0 != key
  {
    var j := LastWith(fields, key, |fields|);
    LastWithIsLast(fields, key, |fields|);
    if j >= 0 {
      assert fields[j] == (key, Lookup(fields, key).value);
    }
  }

  /** Pair `i` is the first one with its key: the place a dict built from the
      pairs gives that key. */
  predicate FirstOccurrence(fields: seq<(string, Json)>, i: nat)
    requires i < |fields|
  {
    forall j :: 0 <= j < i ==> fields[j].0 != fields[i].0
  }

  /** The positions, among the first `n` pairs, of the first pair of each key,
      in increasing order: the keys of the dict in insertion order. */
  function KeyPositions(fields: seq<(string, Json)>, n: nat): (r: seq<nat>)
    requires n <= |fields|
    ensures forall p :: 0 <= p < |r| ==> r[p] < n
    decreases n
  {
    if n == 0 then []
    else KeyPositions(fields, n - 1) + (if FirstOccurrence(fields, n - 1) then [n - 1] else [])
  }

  /** `KeyPositions` lists exactly the first occurrences, in increasing order. */
  lemma {:induction false} KeyPositionsAreFirstOccurrences(fields: seq<(string, Json)>, n: nat)
    requires n <= |fields|
    ensures var r := KeyPositions(fields, n);
            && (forall p :: 0 <= p < |r| ==> FirstOccurrence(fields, r[p]))
            && (forall p, q :: 0 <= p < q < |r| ==> r[p] < r[q])
            && (forall i :: 0 <= i < n && FirstOccurrence(fields, i) ==> i in r)
  {
    KeyPositionsOnlyFirst(fields, n);
    KeyPositionsIncrease(fields, n);
    KeyPositionsComplete(fields, n);
  }

  /** `KeyPositions(fields, n)` extends `KeyPositions(fields, n - 1)`. */
  lemma KeyPositionsStep(fields: seq<(string, Json)>, n: nat)
    requires 0 < n <= |fields|
    ensures var prev := KeyPositions(fields, n - 1);
            var r := KeyPositions(fields, n);
            && (forall p :: 0 <= p < |prev| ==> r[p] == prev[p])
            && (FirstOccurrence(fields, n - 1) ==> |r| == |prev| + 1 && r[|prev|] == n - 1)
            && (!FirstOccurrence(fields, n - 1) ==> r == prev)
  {
  }

  lemma {:induction false} KeyPositionsOnlyFirst(fields: seq<(string, Json)>, n: nat)
    requires n <= |fields|
    ensures var r := KeyPositions(fields, n);
            forall p :: 0 <= p < |r| ==> FirstOccurrence(fields, r[p])
    decreases n
  {
    if n > 0 {
      KeyPositionsOnlyFirst(fields, n - 1);
      KeyPositionsStep(fields, n);
    }
  }

  lemma {:induction false} KeyPositionsIncrease(fields: seq<(string, Json)>, n: nat)
    requires n <= |fields|
    ensures var r := KeyPositions(fields, n);
            forall p, q :: 0 <= p < q < |r| ==> r[p] < r[q]
    decreases n
  {
    if n > 0 {
      KeyPositionsIncrease(fields, n - 1);
      KeyPositionsStep(fields, n);
    }
  }

  lemma {:induction false} KeyPositionsComplete(fields: seq<(string, Json)>, n: nat)
    requires n <= |fields|
    ensures var r := KeyPositions(fields, n);
            forall i :: 0 <= i < n && FirstOccurrence(fields, i) ==> i in r
    decreases n
  {
    if n > 0 {
      KeyPositionsComplete(fields, n - 1);
      KeyPositionsStep(fields, n);
      var prev := KeyPositions(fields, n - 1);
      var r := KeyPositions(fields, n);
      forall i | 0 <= i < n && FirstOccurrence(fields, i)
        ensures i in r
      {
        if i < n - 1 {
          var p :| 0 <= p < |prev| && prev[p] == i;
          assert r[p] == i;
        }
      }
    }
  }

  /** Every key has a first pair, at or before any pair that has it. */
  lemma {:induction false} FirstOccurrenceExists(fields: seq<(string, Json)>, i: nat)
    requires i < |fields|
    ensures exists i0 :: 0 <= i0 <= i && FirstOccurrence(fields, i0) && fields[i0].0 == fields[i].0
    decreases i
  {
    if !FirstOccurrence(fields, i) {
      var j :| 0 <= j < i && fields[j].0 == fields[i].0;
      FirstOccurrenceExists(fields, j);
    }
  }

  /** `d.get(key)` with Python's default default: an absent key reads as `None`. */
  function Get(fields: seq<(string, Json)>, key: string): Json {
    Lookup(fields, key).GetOr(JNull)
  }

  /** Python truthiness: `None`, `False`, `0` and empty containers are false. */
  predicate Truthy(v: Json) {
    match v
    case JNull => false
    case JBool(b) => b
    case JNum(n) => n != 0
    case JStr(s) => |s| > 0
    case JArr(items) => |items| > 0
    case JObj(fields) => |fields| > 0
  }

  /** `for x in v`: a list yields its items, a string its one-character strings,
      a dict its keys in insertion order; any other value raises `TypeError`
      (None here). */
  function Iterate(v: Json): (r: Option<seq<Json>>)
    ensures r.None? <==> v.JNull? || v.JBool? || v.JNum?
    ensures v.JArr? ==> r == Some(v.items)
    ensures v.JStr? ==> r.Some? && |r.value| == |v.s|
                        && forall i :: 0 <= i < |v.s| ==> r.value[i] == JStr([v.s[i]])
    ensures v.JObj? ==>
              var ps := KeyPositions(v.fields, |v.fields|);
              && r.Some? && |r.value| == |ps|
              && forall n :: 0 <= n < |ps| ==> r.value[n] == JStr(v.fields[ps[n]].0)
  {
    match v
    case JArr(items) => Some(items)
    case JStr(s) => Some(seq(|s|, i requires 0 <= i < |s| => JStr([s[i]])))
    case JObj(fields) =>
      var ps := KeyPositions(fields, |fields|);
      Some(seq(|ps|, n requires 0 <= n < |ps| => JStr(fields[ps[n]].0)))
    case _ => None
  }

  /** Iterating a dict yields each of its keys exactly once, whatever keys the
      text repeated, and nothing that is not one of its keys. */
  lemma IterateDictKeys(fields: seq<(string, Json)>)
    ensures var r := Iterate(JObj(fields)).value;
            && (forall n :: 0 <= n < |r| ==> r[n].JStr? && Lookup(fields, r[n].s).Some?)
            && (forall i :: 0 <= i < |fields| ==> JStr(fields[i].0) in r)
            && (forall a, b :: 0 <= a < b < |r| ==> r[a] != r[b])
  {
    var r := Iterate(JObj(fields)).value;
    var ps := KeyPositions(fields, |fields|);
    KeyPositionsAreFirstOccurrences(fields, |fields|);
    forall n | 0 <= n < |r|
      ensures r[n].JStr? && Lookup(fields, r[n].s).Some?
    {
      var key := fields[ps[n]].0;
      LastWithIsLast(fields, key, |fields|);
      assert LastWith(fields, key, |fields|) >= ps[n];
    }
    forall i | 0 <= i < |fields|
      ensures JStr(fields[i].0) in r
    {
      FirstOccurrenceExists(fields, i);
      var i0 :| 0 <= i0 <= i && FirstOccurrence(fields, i0) && fields[i0].0 == fields[i].0;
      assert i0 in ps;
      var n :| 0 <= n < |ps| && ps[n] == i0;
      assert r[n] == JStr(fields[i].0);
    }
  }

  function DigitChar(d: nat): char
    requires d < 10
  {
    "0123456789"[d]
  }

  /** Every character is a decimal digit. */
  predicate AllDigits(s: string) {
    forall i :: 0 <= i < |s| ==> '0' <= s[i] <= '9'
  }

  /** Decimal digits of a natural number, most significant first. */
  function NatToString(n: nat): (r: string)
    ensures |r| > 0
    ensures AllDigits(r)
    decreases n
  {
    if n < 10 then [DigitChar(n)] else NatToString(n / 10) + [DigitChar(n % 10)]
  }

  /** `str(n)` for a Python int. */
  function IntToString(n: int): string {
    if n < 0 then "-" + NatToString(-n) else NatToString(n)
  }

  /** `str(v)`: a string prints as itself, everything else as its `repr`. */
  function Str(v: Json): (r: string)
    ensures v.JStr? ==> r == v.s
    ensures v.JNull? ==> r == "None"
    ensures v.JBool? ==> r == if v.b then "True" else "False"
    ensures v.JNum? ==> r == IntToString(v.n)
  {
    if v.JStr? then v.s else Repr(v)
  }

  /** `repr(v)` for the values the parser yields. A string is quoted with single
      quotes; the escaping of quotes and control characters is not modelled. */
  function Repr(v: Json): string
    decreases v, 1
  {
    match v
    case JNull => "None"
    case JBool(b) => if b then "True" else "False"
    case JNum(n) => IntToString(n)
    case JStr(s) => "'" + s + "'"
    case JArr(items) => "[" + ReprItems(v, items) + "]"
    case JObj(fields) => "{" + ReprFields(v, fields, KeyPositions(fields, |fields|)) + "}"
  }

  function ReprItems(ghost parent: Json, items: seq<Json>): string
    requires forall i :: 0 <= i < |items| ==> items[i] < parent
    decreases parent, 0, |items|
  {
    if |items| == 0 then ""
    else if |items| == 1 then Repr(items[0])
    else
      assert forall i :: 0 <= i < |items| - 1 ==> items[1..][i] == items[i + 1];
      Repr(items[0]) + ", " + ReprItems(parent, items[1..])
  }

  /** The dict's entries in key order, one per key at positions `ps`, each
      with the value of the last pair that has the key. */
  function ReprFields(ghost parent: Json, fields: seq<(string, Json)>, ps: seq<nat>): string
    requires forall i :: 0 <= i < |fields| ==> fields[i].1 < parent
    requires forall p :: 0 <= p < |ps| ==> ps[p] < |fields|
    decreases parent, 0, |ps|
  {
    if |ps| == 0 then ""
    else
      var key := fields[ps[0]].0;
      var j := LastWith(fields, key, |fields|);
      LastWithIsLast(fields, key, |fields|);
      assert j >= ps[0];
      var entry := "'" + key + "': " + Repr(fields[j].1);
      assert forall p :: 0 <= p < |ps| - 1 ==> ps[1..][p] == ps[p + 1];
      if |ps| == 1 then entry else entry + ", " + ReprFields(parent, fields, ps[1..])
  }

  /** The value a string of decimal digits denotes, read most significant first
      (Python's `int()` on such a string). */
  function DigitsValue(s: string): nat
    requires AllDigits(s)
  {
    if |s| == 0 then 0
    else DigitsValue(s[..|s| - 1]) * 10 + (s[|s| - 1] as int - '0' as int)
  }

  /** Printing an integer loses nothing: reading its digits back gives it again,
      so a notification such as "Clicked at 100,200" carries the coordinates. */
  lemma {:induction false} NatToStringRoundTrip(n: nat)
    ensures DigitsValue(NatToString(n)) == n
    decreases n
  {
    var r := NatToString(n);
    if n >= 10 {
      NatToStringRoundTrip(n / 10);
      assert r[..|r| - 1] == NatToString(n / 10);
    }
  }

  /** `int(s)` on an optionally signed run of decimal digits; None where
      Python raises ValueError (other forms `int` accepts are not needed). */
  function ReadInt(s: string): Option<int> {
    if |s| > 1 && s[0] == '-' && AllDigits(s[1..]) then Some(-(DigitsValue(s[1..]) as int))
    else if |s| > 0 && AllDigits(s) then Some(DigitsValue(s))
    else None
  }

  /** Printing any integer, negative ones included, loses nothing: `int()`
      reads the text back as the same number. */
  lemma IntToStringRoundTrip(n: int)
    ensures ReadInt(IntToString(n)) == Some(n)
  {
    if n < 0 {
      NegativeRoundTrip(n);
    } else {
      NonNegativeRoundTrip(n);
    }
  }

  lemma NegativeRoundTrip(n: int)
    requires n < 0
    ensures ReadInt(IntToString(n)) == Some(n)
  {
    var digits := NatToString(-n);
    NatToStringRoundTrip(-n);
    assert IntToString(n) == "-" + digits;
    assert ("-" + digits)[1..] == digits;
  }

  lemma NonNegativeRoundTrip(n: nat)
    ensures ReadInt(IntToString(n)) == Some(n)
  {
    var digits := NatToString(n);
    NatToStringRoundTrip(n);
    assert IntToString(n) == digits;
    assert '0' <= digits[0] <= '9';
  }

  /** Python's falsy values among those the parser yields are exactly `None`,
      `False`, `0`, and the empty string, list and dict. */
  lemma FalsyValues(v: Json)
    ensures !Truthy(v) <==> v in [JNull, JBool(false), JNum(0), JStr(""), JArr([]), JObj([])]
  {
  }

  /** The pairs of `{"a": 1, "b": 2, "a": 3}` as `json.loads` reads them. */
  function RepeatedKeySample(): seq<(string, Json)> {
    [("a", JNum(1)), ("b", JNum(2)), ("a", JNum(3))]
  }

  lemma RepeatedKeySamplePositions()
    ensures KeyPositions(RepeatedKeySample(), 3) == [0, 1]
  {
    var fields := RepeatedKeySample();
    assert FirstOccurrence(fields, 1) by { assert fields[0].0 != fields[1].0; }
    assert !FirstOccurrence(fields, 2) by { assert fields[0].0 == fields[2].0; }
    assert KeyPositions(fields, 1) == [0];
    assert KeyPositions(fields, 2) == [0, 1];
  }

  lemma RepeatedKeySampleEntries()
    ensures var fields := RepeatedKeySample();
            ReprFields(JObj(fields), fields, [0, 1]) == "'a': 3, 'b': 2"
  {
    var fields := RepeatedKeySample();
    assert LastWith(fields, "a", 3) == 2;
    assert LastWith(fields, "b", 3) == 1 by { assert LastWith(fields, "b", 2) == 1; }
    assert Repr(JNum(3)) == "3" && Repr(JNum(2)) == "2";
    assert [0, 1][1..] == [1];
    assert ReprFields(JObj(fields), fields, [1]) == "'b': 2";
  }

  /** A repeated key counts once, at its first position, with its last value:
      `{"a": 1, "b": 2, "a": 3}` prints as `{'a': 3, 'b': 2}` and iterates as
      `a`, `b`. */
  lemma RepeatedKeyKeepsFirstPlaceLastValue()
    ensures var obj := JObj(RepeatedKeySample());
            && Str(obj) == "{'a': 3, 'b': 2}"
            && Iterate(obj) == Some([JStr("a"), JStr("b")])
  {
    var fields := RepeatedKeySample();
    RepeatedKeySamplePositions();
    RepeatedKeySampleEntries();
    assert Str(JObj(fields)) == "{'a': 3, 'b': 2}";
    var r := Iterate(JObj(fields)).value;
    assert |r| == 2 && r[0] == JStr("a") && r[1] == JStr("b");
    assert r == [JStr("a"), JStr("b")];
  }

  /** What the vision backend's fallback reply `{"result": null}` prints as, so
      every vision notification reads "Vision result: {'result': None}". */
  lemma NullResultText()
    ensures Str(JObj([("result", JNull)])) == "{'result': None}"
  {
    var fields := [("result", JNull)];
    assert KeyPositions(fields, 1) == [0];
    NullResultEntry();
    assert Repr(JObj(fields)) == "{" + "'result': None" + "}";
  }

  lemma NullResultEntry()
    ensures var fields := [("result", JNull)];
            ReprFields(JObj(fields), fields, [0]) == "'result': None"
  {
    var fields := [("result", JNull)];
    assert LastWith(fields, "result", 1) == 0;
    assert Repr(fields[0].1) == "None";
  }
}
