/** The usual Some/None wrapper for a value that may be absent. */
module Wrappers {
  datatype Option<+T> = None | Some(value: T)
}

/**
 * JSON values as a notification payload holds them, JavaScript objects as
 * ordered member lists, and the text JSON.stringify produces for them.
 */
module Json {
  import opened Wrappers

  datatype Value =
    | Null
    | Bool(b: bool)
    | Num(n: int)
    | Str(s: string)
    | Arr(items: seq<Value>)
    | Obj(members: seq<Member>)

  /**
   * One key/value pair of an object. Members are kept in insertion order, as
   * JavaScript keeps string keys; it lists array-index keys first, which is
   * not modelled.
   */
  datatype Member = Member(key: string, value: Value)

  // Objects as ordered member lists

  /** The keys of an object, in order. */
  function Keys(o: seq<Member>): (ks: seq<string>)
    ensures |ks| == |o|
    ensures forall i :: 0 <= i < |o| ==> ks[i] == o[i].key
  {
    if o == [] then [] else [o[0].key] + Keys(o[1..])
  }

  /** No key occurs twice, as in every JavaScript object. */
  predicate UniqueKeys(o: seq<Member>)
  {
    forall i, j :: 0 <= i < j < |o| ==> o[i].key != o[j].key
  }

  /** `o[k]`: the value stored under key k, if any. */
  function Get(o: seq<Member>, k: string): (r: Option<Value>)
    ensures r.None? <==> k !in Keys(o)
    ensures r.Some? ==> Member(k, r.value) in o
    ensures UniqueKeys(o) ==> forall v :: Member(k, v) in o ==> r == Some(v)
  {
    if o == [] then None
    else if o[0].key == k then Some(o[0].value)
    else Get(o[1..], k)
  }

  /** `o[k] = v` on a copy: the map laws; where the member lands is SetExistingKeys and SetNewAppends. */
  function Set(o: seq<Member>, k: string, v: Value): (r: seq<Member>)
    ensures Get(r, k) == Some(v)
    ensures forall k' :: k' != k ==> Get(r, k') == Get(o, k')
  {
    if o == [] then [Member(k, v)]
    else if o[0].key == k then [Member(k, v)] + o[1..]
    else [o[0]] + Set(o[1..], k, v)
  }

  /** Setting an existing key keeps every key in its position ... */
  lemma {:induction false} SetExistingKeys(o: seq<Member>, k: string, v: Value)
    requires k in Keys(o)
    ensures Keys(Set(o, k, v)) == Keys(o)
  {
    if o[0].key == k {
      KeysCons(Member(k, v), o[1..]);
    } else {
      SetExistingKeys(o[1..], k, v);
      KeysCons(o[0], Set(o[1..], k, v));
    }
  }

  /** ... and setting a new key appends it last. */
  lemma {:induction false} SetNewAppends(o: seq<Member>, k: string, v: Value)
    requires k !in Keys(o)
    ensures Set(o, k, v) == o + [Member(k, v)]
  {
    if o != [] {
      var m := Member(k, v);
      assert o == [o[0]] + o[1..];
      KeysCons(o[0], o[1..]);
      SetNewAppends(o[1..], k, v);
      assert [o[0]] + (o[1..] + [m]) == o + [m];
    }
  }

  lemma KeysCons(m: Member, o: seq<Member>)
    ensures Keys([m] + o) == [m.key] + Keys(o)
  {
    assert ([m] + o)[1..] == o;
  }

  lemma {:induction false} SetUnique(o: seq<Member>, k: string, v: Value)
    requires UniqueKeys(o)
    ensures UniqueKeys(Set(o, k, v))
  {
    if o == [] {
    } else if o[0].key == k {
      UniqueTail(o);
      UniqueCons(Member(k, v), o[1..]);
    } else {
      UniqueTail(o);
      var rest := Set(o[1..], k, v);
      SetUnique(o[1..], k, v);
      if k in Keys(o[1..]) {
        SetExistingKeys(o[1..], k, v);
      } else {
        SetNewAppends(o[1..], k, v);
        KeysSnoc(o[1..], Member(k, v));
      }
      UniqueCons(o[0], rest);
    }
  }

  lemma KeysSnoc(o: seq<Member>, m: Member)
    ensures Keys(o + [m]) == Keys(o) + [m.key]
  {
  }

  lemma UniqueTail(o: seq<Member>)
    requires o != [] && UniqueKeys(o)
    ensures o[0].key !in Keys(o[1..]) && UniqueKeys(o[1..])
  {
  }

  lemma UniqueCons(m: Member, rest: seq<Member>)
    requires m.key !in Keys(rest) && UniqueKeys(rest)
    ensures UniqueKeys([m] + rest)
  {
    forall i, j | 0 <= i < j < |[m] + rest| ensures ([m] + rest)[i].key != ([m] + rest)[j].key {
      if i == 0 { assert ([m] + rest)[j].key == Keys(rest)[j - 1]; }
    }
  }

  /** `delete o[k]` on a copy: every other member stays, in order (RemoveConcat, RemoveSingle). */
  function Remove(o: seq<Member>, k: string): (r: seq<Member>)
    ensures Get(r, k) == None
    ensures forall k' :: k' != k ==> Get(r, k') == Get(o, k')
  {
    if o == [] then []
    else if o[0].key == k then Remove(o[1..], k)
    else [o[0]] + Remove(o[1..], k)
  }

  /** Deleting a key the object does not have changes nothing. */
  lemma {:induction false} RemoveAbsent(o: seq<Member>, k: string)
    requires k !in Keys(o)
    ensures Remove(o, k) == o
  {
    if o != [] {
      RemoveAbsent(o[1..], k);
      assert o == [o[0]] + o[1..];
    }
  }

  /**
   * Deleting works part by part: a list splits into parts that are
   * filtered separately. With RemoveSingle this fixes the order of the
   * members that stay.
   */
  lemma {:induction false} RemoveConcat(a: seq<Member>, b: seq<Member>, k: string)
    ensures Remove(a + b, k) == Remove(a, k) + Remove(b, k)
  {
    if a == [] {
      assert a + b == b;
    } else {
      var ab := a + b;
      assert ab[0] == a[0] && ab[1..] == a[1..] + b;
      var tail := Remove(a[1..], k);
      RemoveConcat(a[1..], b, k);
      if a[0].key == k {
        calc {
          Remove(ab, k);
          Remove(a[1..] + b, k);
          tail + Remove(b, k);
        }
      } else {
        calc {
          Remove(ab, k);
          [a[0]] + Remove(a[1..] + b, k);
          [a[0]] + (tail + Remove(b, k));
          ([a[0]] + tail) + Remove(b, k);
        }
      }
    }
  }

  /** A single member is kept exactly when its key differs. */
  lemma RemoveSingle(m: Member, k: string)
    ensures Remove([m], k) == if m.key == k then [] else [m]
  {
    assert [m][1..] == [];
  }

  /** Every member a deletion keeps was there before, under another key. */
  lemma {:induction false} RemoveMembers(o: seq<Member>, k: string)
    ensures forall m :: m in Remove(o, k) ==> m in o && m.key != k
  {
    if o != [] {
      RemoveMembers(o[1..], k);
    }
  }

  /** Every member of a copy with `o[k] = v` is the new one or was there before. */
  lemma {:induction false} SetMembers(o: seq<Member>, k: string, v: Value)
    ensures forall m :: m in Set(o, k, v) ==> m == Member(k, v) || m in o
  {
    if o != [] && o[0].key != k {
      SetMembers(o[1..], k, v);
    }
  }

  lemma {:induction false} RemoveUnique(o: seq<Member>, k: string)
    requires UniqueKeys(o)
    ensures UniqueKeys(Remove(o, k))
    ensures forall k' :: k' in Keys(Remove(o, k)) ==> k' in Keys(o)
  {
    if o != [] {
      RemoveUnique(o[1..], k);
      if o[0].key != k {
        var rest := Remove(o[1..], k);
        assert o[0].key !in Keys(o[1..]);
        assert o[0].key !in Keys(rest);
      }
    }
  }

  // Values a JavaScript program can hold

  /** No object, at any depth, has a key twice. */
  predicate ValidValue(v: Value)
  {
    match v
    case Arr(items) => forall i :: 0 <= i < |items| ==> ValidValue(items[i])
    case Obj(members) => UniqueKeys(members) && forall m :: m in members ==> ValidValue(m.value)
    case _ => true
  }

  predicate ValidObject(o: seq<Member>)
  {
    ValidValue(Obj(o))
  }

  /** Setting a valid value keeps an object valid ... */
  lemma SetValid(o: seq<Member>, k: string, v: Value)
    requires ValidObject(o) && ValidValue(v)
    ensures ValidObject(Set(o, k, v))
  {
    SetUnique(o, k, v);
    SetMembers(o, k, v);
  }

  /** ... and so does deleting a key. */
  lemma RemoveValid(o: seq<Member>, k: string)
    requires ValidObject(o)
    ensures ValidObject(Remove(o, k))
  {
    RemoveUnique(o, k);
    RemoveMembers(o, k);
  }

  // Serialization, as JSON.stringify writes it: no white space, members in order

  function Stringify(v: Value): (r: string)
    ensures |r| > 0
    ensures v.Obj? ==> r[0] == '{' && r[|r| - 1] == '}'
    ensures v.Str? ==> r[0] == '"' && r[|r| - 1] == '"'
  {
    match v
    case Null => "null"
    case Bool(b) => if b then "true" else "false"
    case Num(n) => NumberText(n)
    case Str(s) => Quote(s)
    case Arr(items) => "[" + StringifyItems(items) + "]"
    case Obj(members) => "{" + StringifyMembers(members) + "}"
  }

  function StringifyItems(items: seq<Value>): string
  {
    if items == [] then ""
    else if |items| == 1 then Stringify(items[0])
    else Stringify(items[0]) + "," + StringifyItems(items[1..])
  }

  function StringifyMembers(members: seq<Member>): string
  {
    if members == [] then ""
    else
      var m := Quote(members[0].key) + ":" + Stringify(members[0].value);
      if |members| == 1 then m else m + "," + StringifyMembers(members[1..])
  }

  // Strings

  function Quote(s: string): string
  {
    "\"" + Escape(s) + "\""
  }

  /** A character JSON.stringify writes as itself. */
  predicate IsPlainChar(c: char)
  {
    ' ' <= c && c != '"' && c != '\\'
  }

  predicate IsPlainText(s: string)
  {
    forall i :: 0 <= i < |s| ==> IsPlainChar(s[i])
  }

  /**
   * The body of a JSON string literal: quotation mark and backslash get a
   * backslash, the control characters below U+0020 their short or \u00xx escape.
   */
  function Escape(s: string): (r: string)
    ensures |r| >= |s|
    ensures IsPlainText(s) ==> r == s
  {
    if s == [] then "" else EscapeChar(s[0]) + Escape(s[1..])
  }

  /** A string of plain characters is written between quotation marks as it is. */
  lemma QuotePlain(s: string)
    requires IsPlainText(s)
    ensures Quote(s) == "\"" + s + "\""
    ensures |Quote(s)| == |s| + 2
  {
  }

  function EscapeChar(c: char): (r: string)
    ensures |r| >= 1
    ensures IsPlainChar(c) <==> r == [c]
  {
    if c == '"' then "\\\""
    else if c == '\\' then "\\\\"
    else if c == 8 as char then "\\b"
    else if c == '\t' then "\\t"
    else if c == '\n' then "\\n"
    else if c == 12 as char then "\\f"
    else if c == '\r' then "\\r"
    else if c < ' ' then "\\u00" + [HexDigit(c as int / 16), HexDigit(c as int % 16)]
    else [c]
  }

  function HexDigit(d: int): char
    requires 0 <= d < 16
  {
    if d < 10 then ('0' as int + d) as char else ('a' as int + d - 10) as char
  }

  // Numbers (integers only)

  function NumberText(n: int): (r: string)
    ensures |r| > 0
  {
    if n < 0 then "-" + Digits(-n) else Digits(n)
  }

  predicate IsDigit(c: char)
  {
    '0' <= c <= '9'
  }

  predicate IsDigitText(s: string)
  {
    forall i :: 0 <= i < |s| ==> IsDigit(s[i])
  }

  /** The number a string of decimal digits denotes. */
  function DecimalValue(s: string): nat
    requires IsDigitText(s)
  {
    if s == [] then 0 else DecimalValue(s[..|s| - 1]) * 10 + (s[|s| - 1] as int - '0' as int)
  }

  /** The decimal digits of n, most significant first, with no leading zero. */
  function Digits(n: nat): (r: string)
    ensures |r| > 0 && IsDigitText(r)
    ensures r[0] == '0' ==> r == "0"
    ensures DecimalValue(r) == n
  {
    var last := ('0' as int + n % 10) as char;
    if n < 10 then [last]
    else
      var front := Digits(n / 10);
      assert (front + [last])[..|front|] == front;
      front + [last]
  }
}
