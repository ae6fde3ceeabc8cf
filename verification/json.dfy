/**
 JSON values as the client reads and writes them. A parsed document is a value tree whose
 objects keep their members in document order, duplicates included, because the typed
 records are decoded straight from the response text (see the Structs module). The module
 also gives the compact text serde_json writes for a value, which is the request body the
 client sends.
 */
module Json {
  import opened Text

  /** A JSON value. Numbers are integers in this model. */
  datatype Value =
    | Null
    | Bool(b: bool)
    | Number(n: int)
    | String(s: string)
    | Array(items: seq<Value>)
    | Object(members: seq<Member>)

  /** One `"key": value` pair of an object. */
  datatype Member = Member(key: string, value: Value)

  /** The values an object gives, in document order, under any key in `names`. */
  function ValuesAt(members: seq<Member>, names: set<string>): (vs: seq<Value>)
    ensures |vs| <= |members|
    ensures |vs| == 0 <==> forall i :: 0 <= i < |members| ==> members[i].key !in names
  {
    if |members| == 0 then []
    else
      var rest := ValuesAt(members[1..], names);
      if members[0].key in names then [members[0].value] + rest else rest
  }

  /** The keys an object uses. */
  function Keys(members: seq<Member>): set<string>
  {
    set i | 0 <= i < |members| :: members[i].key
  }

  /**
   The members whose key is not in `names`, in document order: what a struct with a
   `#[serde(flatten)]` catch-all collects after its named fields are taken.
   */
  function Without(members: seq<Member>, names: set<string>): (rest: seq<Member>)
    ensures forall i :: 0 <= i < |rest| ==> rest[i].key !in names
    ensures Keys(rest) == Keys(members) - names
  {
    if |members| == 0 then []
    else
      var init := members[..|members| - 1];
      var last := members[|members| - 1];
      KeysSnoc(init, last);
      var tail := if last.key in names then [] else [last];
      KeysAppend(Without(init, names), tail);
      Without(init, names) + tail
  }

  lemma KeysSingle(m: Member)
    ensures Keys([m]) == {m.key}
  {
    assert [m][0].key == m.key;
  }

  lemma KeysSnoc(init: seq<Member>, last: Member)
    ensures Keys(init + [last]) == Keys(init) + {last.key}
  {
    var ms := init + [last];
    forall k | k in Keys(ms) ensures k in Keys(init) + {last.key} {
      var i :| 0 <= i < |ms| && ms[i].key == k;
      if i < |init| {
        assert init[i].key == k;
      }
    }
    forall k | k in Keys(init) ensures k in Keys(ms) {
      var i :| 0 <= i < |init| && init[i].key == k;
      assert ms[i].key == k;
    }
    assert ms[|init|].key == last.key;
  }

  lemma KeysAppend(a: seq<Member>, b: seq<Member>)
    ensures Keys(a + b) == Keys(a) + Keys(b)
  {
    var ab := a + b;
    forall k | k in Keys(ab) ensures k in Keys(a) + Keys(b) {
      var i :| 0 <= i < |ab| && ab[i].key == k;
      if i < |a| {
        assert a[i].key == k;
      } else {
        assert b[i - |a|].key == k;
      }
    }
    forall k | k in Keys(a) + Keys(b) ensures k in Keys(ab) {
      if k in Keys(a) {
        var i :| 0 <= i < |a| && a[i].key == k;
        assert ab[i].key == k;
      } else {
        var i :| 0 <= i < |b| && b[i].key == k;
        assert ab[|a| + i].key == k;
      }
    }
  }

  /** Looking up two disjoint sets of keys at once finds the values of both, no more. */
  lemma {:induction false} ValuesAtDisjoint(members: seq<Member>, a: set<string>, b: set<string>)
    requires a !! b
    ensures |ValuesAt(members, a + b)| == |ValuesAt(members, a)| + |ValuesAt(members, b)|
    ensures ValuesAt(members, a) == [] ==> ValuesAt(members, a + b) == ValuesAt(members, b)
    ensures ValuesAt(members, b) == [] ==> ValuesAt(members, a + b) == ValuesAt(members, a)
  {
    if |members| > 0 {
      ValuesAtDisjoint(members[1..], a, b);
    }
  }

  /** Looking a key up in the concatenation of two member lists. */
  lemma {:induction false} ValuesAtAppend(a: seq<Member>, b: seq<Member>, names: set<string>)
    ensures ValuesAt(a + b, names) == ValuesAt(a, names) + ValuesAt(b, names)
  {
    if |a| > 0 {
      assert (a + b)[0] == a[0];
      assert (a + b)[1..] == a[1..] + b;
      ValuesAtAppend(a[1..], b, names);
      if a[0].key in names {
        assert [a[0].value] + ValuesAt(a[1..], names) + ValuesAt(b, names)
            == [a[0].value] + (ValuesAt(a[1..], names) + ValuesAt(b, names));
      }
    } else {
      assert a + b == b;
    }
  }

  /**
   The map serde_json builds from a list of members: each key bound to the value of its
   last occurrence.
   */
  function LastWins(members: seq<Member>): (m: map<string, Value>)
    ensures m.Keys == Keys(members)
  {
    if |members| == 0 then map[]
    else
      var init := members[..|members| - 1];
      var last := members[|members| - 1];
      assert members == init + [last];
      KeysSnoc(init, last);
      LastWins(init)[last.key := last.value]
  }

  /** In `LastWins`, a key is bound to the value of its last occurrence. */
  lemma {:induction false} LastWinsValue(members: seq<Member>, i: nat)
    requires i < |members|
    requires forall j :: i < j < |members| ==> members[j].key != members[i].key
    ensures members[i].key in LastWins(members)
    ensures LastWins(members)[members[i].key] == members[i].value
  {
    var n := |members|;
    if i < n - 1 {
      var init := members[..n - 1];
      LastWinsValue(init, i);
    }
  }

  /**
   Dropping the members named by `names` does not change what `LastWins` binds the other
   keys to.
   */
  lemma {:induction false} LastWinsWithout(members: seq<Member>, names: set<string>, k: string)
    requires k !in names && k in Keys(members)
    ensures k in LastWins(Without(members, names))
    ensures LastWins(Without(members, names))[k] == LastWins(members)[k]
  {
    var n := |members|;
    var init, last := members[..n - 1], members[n - 1];
    assert members == init + [last];
    KeysSnoc(init, last);
    var tail := if last.key in names then [] else [last];
    var w := Without(init, names);
    assert Without(members, names) == w + tail;
    if last.key == k {
      assert (w + tail) == w + [last];
      assert (w + [last])[..|w + [last]| - 1] == w;
    } else {
      LastWinsWithout(init, names, k);
      if tail != [] {
        assert (w + [last])[..|w + [last]| - 1] == w;
      } else {
        assert w + tail == w;
      }
    }
  }

  /** The character of hexadecimal digit `d`, lower case as serde_json writes it. */
  function HexDigit(d: nat): char
    requires d < 16
  {
    "0123456789abcdef"[d]
  }

  /** serde_json's escape for one character of a string. */
  function EscapeChar(c: char): (r: string)
    ensures |r| > 0
    ensures forall i :: 0 <= i < |r| ==> r[i] as int >= 0x20
  {
    if c == '"' then "\\\""
    else if c == '\\' then "\\\\"
    else if c as int == 0x08 then "\\b"
    else if c == '\t' then "\\t"
    else if c == '\n' then "\\n"
    else if c as int == 0x0C then "\\f"
    else if c == '\r' then "\\r"
    else if c as int < 0x20 then "\\u00" + [HexDigit(c as int / 16), HexDigit(c as int % 16)]
    else [c]
  }

  /** The escaped contents of a string literal: never a raw control character, and never shorter. */
  function Escape(s: string): (r: string)
    ensures |r| >= |s|
    ensures forall i :: 0 <= i < |r| ==> r[i] as int >= 0x20
  {
    if |s| == 0 then "" else EscapeChar(s[0]) + Escape(s[1..])
  }

  /** A JSON string literal. */
  function Quote(s: string): (r: string)
    ensures |r| >= 2 && r[0] == '"' && r[|r| - 1] == '"'
  {
    "\"" + Escape(s) + "\""
  }

  /** The compact text serde_json's `to_string` writes for `v`; never empty. */
  function Serialize(v: Value): (text: string)
    ensures |text| > 0
    decreases v
  {
    match v
    case Null => "null"
    case Bool(b) => if b then "true" else "false"
    case Number(n) => IntToDecimal(n)
    case String(s) => Quote(s)
    case Array(items) =>
      "[" + Join(seq(|items|, i requires 0 <= i < |items| => Serialize(items[i])), ',') + "]"
    case Object(members) =>
      "{" + Join(seq(|members|, i requires 0 <= i < |members| =>
                       Quote(members[i].key) + ":" + Serialize(members[i].value)), ',') + "}"
  }
}
