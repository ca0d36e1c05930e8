/**
 * The Python values the library handles: what `json.load` and `response.json()` produce,
 * keyword arguments, and the exceptions its functions raise.  Dictionaries keep Python's
 * insertion order, so a dictionary is an association list with one entry per key.
 */
module PyValues {
  import opened Wrappers

  /** A Python value.  A float is held as its `str()` text ("1.5", "nan"): the core never
      computes with floats, it only tests and prints them. */
  datatype Json =
    | Null
    | Bool(b: bool)
    | Int(i: int)
    | Float(text: string)
    | Str(s: string)
    | List(items: seq<Json>)
    | Dict(fields: seq<(string, Json)>)

  /** The entries of a Python dict, in insertion order. */
  type Fields = seq<(string, Json)>

  /** The exceptions raised along the modelled paths. */
  datatype Error =
    | KeyError(key: string)
    | TypeError(what: string)
    | ValueError(message: string)
    | Exception(message: string)
    | FileNotFoundError(message: string)
    | OSError(path: string)
    | AttributeError(name: string)
    | UnboundLocalError(name: string)
    | JSONDecodeError
    | ConnectionError
    | SigningError

  // ---------------------------------------------------------------------------
  // Dictionaries

  /** The keys of a dict, in order. */
  function Keys(d: Fields): (ks: seq<string>)
    ensures |ks| == |d|
    ensures forall i :: 0 <= i < |d| ==> ks[i] == d[i].0
  {
    if d == [] then [] else [d[0].0] + Keys(d[1..])
  }

  /** A well-formed dict: no key twice. */
  predicate UniqueKeys(d: Fields)
  {
    forall i, j :: 0 <= i < j < |d| ==> d[i].0 != d[j].0
  }

  /** `d.get(k)`: the value stored under `k`, if any. */
  function Get(d: Fields, k: string): Option<Json>
  {
    if d == [] then None
    else if d[0].0 == k then Some(d[0].1)
    else Get(d[1..], k)
  }

  /** The position of the entry a lookup of `k` finds. */
  function IndexOf(d: Fields, k: string): (r: Option<nat>)
    ensures r.Some? ==> r.value < |d| && d[r.value].0 == k && Get(d, k) == Some(d[r.value].1)
    ensures r.None? ==> Get(d, k).None?
  {
    if d == [] then None
    else if d[0].0 == k then Some(0)
    else match IndexOf(d[1..], k)
      case Some(i) => Some(i + 1)
      case None => None
  }

  /** `k in d`. */
  predicate HasKey(d: Fields, k: string)
  {
    Get(d, k).Some?
  }

  /** `d[k] = v`: an existing key keeps its position and takes the new value; a new key is
      appended at the end.  What a lookup sees afterwards is stated by GetPut and PutKeys. */
  function Put(d: Fields, k: string, v: Json): Fields
  {
    if d == [] then [(k, v)]
    else if d[0].0 == k then [(k, v)] + d[1..]
    else [d[0]] + Put(d[1..], k, v)
  }

  /** After `d[k] = v`, `k` maps to `v` and every other key to what it mapped to before. */
  lemma {:induction false} GetPut(d: Fields, k: string, v: Json, k': string)
    ensures Get(Put(d, k, v), k') == if k' == k then Some(v) else Get(d, k')
  {
    if d != [] && d[0].0 != k {
      GetPut(d[1..], k, v, k');
      assert Put(d, k, v)[1..] == Put(d[1..], k, v);
    }
  }

  /** Assigning an existing key keeps the order of the keys; a new key goes last. */
  lemma {:induction false} PutKeys(d: Fields, k: string, v: Json)
    ensures HasKey(d, k) ==> Keys(Put(d, k, v)) == Keys(d)
    ensures !HasKey(d, k) ==> Put(d, k, v) == d + [(k, v)]
  {
    if d != [] && d[0].0 != k {
      PutKeys(d[1..], k, v);
      assert d == [d[0]] + d[1..];
    }
  }

  /** The first entry with key `k` is the one a lookup finds. */
  lemma {:induction false} GetAt(d: Fields, i: nat, k: string)
    requires i < |d| && d[i].0 == k
    requires forall j :: 0 <= j < i ==> d[j].0 != k
    ensures Get(d, k) == Some(d[i].1)
  {
    if i > 0 {
      GetAt(d[1..], i - 1, k);
    }
  }

  /** A key is found exactly when it is one of the keys. */
  lemma {:induction false} GetFindsKeys(d: Fields, k: string)
    ensures Get(d, k).Some? <==> k in Keys(d)
  {
    if d != [] {
      GetFindsKeys(d[1..], k);
      assert Keys(d) == [d[0].0] + Keys(d[1..]);
    }
  }

  /** Assigning keeps a dict well formed. */
  lemma {:induction false} PutKeepsUniqueKeys(d: Fields, k: string, v: Json)
    requires UniqueKeys(d)
    ensures UniqueKeys(Put(d, k, v))
  {
    var r := Put(d, k, v);
    GetFindsKeys(d, k);
    PutKeys(d, k, v);
    if k !in Keys(d) {
      forall i | 0 <= i < |d| ensures d[i].0 != k {
        assert Keys(d)[i] == d[i].0;
      }
    } else {
      forall i | 0 <= i < |r| ensures r[i].0 == d[i].0 {
        assert Keys(r)[i] == Keys(d)[i];
      }
    }
  }

  /** `d.get(k, default)`. */
  function GetOrDefault(d: Fields, k: string, default: Json): Json
  {
    Get(d, k).GetOr(default)
  }

  // ---------------------------------------------------------------------------
  // Truth values and conversion to text

  /** Python truthiness, as tested by `if x:`. */
  predicate Truthy(v: Json)
  {
    match v
    case Null => false
    case Bool(b) => b
    case Int(i) => i != 0
    case Float(t) => t != "0.0" && t != "-0.0"
    case Str(s) => s != ""
    case List(items) => items != []
    case Dict(fields) => fields != []
  }

  function Digit(d: nat): (c: char)
    requires d < 10
    ensures '0' <= c <= '9'
  {
    "0123456789"[d]
  }

  predicate IsDigits(s: string)
  {
    forall i :: 0 <= i < |s| ==> '0' <= s[i] <= '9'
  }

  /** The decimal numeral of a natural number, most significant digit first. */
  function NatToDecimal(n: nat): (s: string)
    ensures |s| > 0 && IsDigits(s)
    ensures (s[0] == '0') <==> n == 0
  {
    if n < 10 then [Digit(n)]
    else
      var prefix := NatToDecimal(n / 10);
      prefix + [Digit(n % 10)]
  }

  /** The value a decimal numeral denotes. */
  function DecimalValue(s: string): nat
    requires IsDigits(s)
  {
    if s == [] then 0
    else
      DecimalValue(s[..|s| - 1]) * 10 + (s[|s| - 1] as int - '0' as int)
  }

  /** `str(i)` for an int. */
  function IntToDecimal(i: int): (s: string)
    ensures |s| > 0
    ensures i >= 0 ==> IsDigits(s)
    ensures i < 0 ==> s[0] == '-' && IsDigits(s[1..])
  {
    if i < 0 then "-" + NatToDecimal(-i) else NatToDecimal(i)
  }

  /** `repr(v)`: the text Python shows for a value nested in a list or dict. */
  function PyRepr(v: Json): string
    decreases v, 1
  {
    match v
    case Null => "None"
    case Bool(b) => if b then "True" else "False"
    case Int(i) => IntToDecimal(i)
    case Float(t) => t
    case Str(s) => "'" + s + "'"
    case List(items) => "[" + ReprItems(v, 0) + "]"
    case Dict(fields) => "{" + ReprEntries(v, 0) + "}"
  }

  /** The items of a list from index `from` on, separated by ", ". */
  function ReprItems(list: Json, from: nat): string
    requires list.List?
    decreases list, 0, |list.items| - from
  {
    if from >= |list.items| then ""
    else if from == |list.items| - 1 then PyRepr(list.items[from])
    else PyRepr(list.items[from]) + ", " + ReprItems(list, from + 1)
  }

  /** The `'key': value` entries of a dict from index `from` on, separated by ", ". */
  function ReprEntries(dict: Json, from: nat): string
    requires dict.Dict?
    decreases dict, 0, |dict.fields| - from
  {
    if from >= |dict.fields| then ""
    else
      var entry := "'" + dict.fields[from].0 + "': " + PyRepr(dict.fields[from].1);
      if from == |dict.fields| - 1 then entry else entry + ", " + ReprEntries(dict, from + 1)
  }

  /** `str(v)`, which is also what an f-string inserts: a string is itself, anything else its repr. */
  function PyStr(v: Json): (s: string)
    ensures v.Str? ==> s == v.s
  {
    match v
    case Str(s) => s
    case _ => PyRepr(v)
  }

  /** `sep.join(parts)`. */
  function Join(sep: string, parts: seq<string>): string
  {
    if parts == [] then ""
    else if |parts| == 1 then parts[0]
    else parts[0] + sep + Join(sep, parts[1..])
  }

  // ---------------------------------------------------------------------------
  // Lemmas

  /** `int(str(n)) == n`: the decimal text of a natural number denotes that number. */
  lemma {:induction false} DecimalRoundTrip(n: nat)
    ensures DecimalValue(NatToDecimal(n)) == n
  {
    var s := NatToDecimal(n);
    if n >= 10 {
      DecimalRoundTrip(n / 10);
      assert s[..|s| - 1] == NatToDecimal(n / 10);
    }
  }

  /** A numeral starts with a minus sign exactly when the int is negative. */
  lemma IntToDecimalSign(i: int)
    ensures (IntToDecimal(i)[0] == '-') <==> i < 0
  {
    if i >= 0 {
      assert '0' <= IntToDecimal(i)[0] <= '9';
    }
  }

  /** Different naturals print differently. */
  lemma NatToDecimalInjective(n: nat, m: nat)
    requires NatToDecimal(n) == NatToDecimal(m)
    ensures n == m
  {
    DecimalRoundTrip(n);
    DecimalRoundTrip(m);
  }

  /** Different ints print differently, so `str` loses nothing on ints. */
  lemma IntToDecimalInjective(i: int, j: int)
    requires IntToDecimal(i) == IntToDecimal(j)
    ensures i == j
  {
    IntToDecimalSign(i);
    IntToDecimalSign(j);
    if i < 0 {
      var a, b := NatToDecimal(-i), NatToDecimal(-j);
      assert a == ("-" + a)[1..] && b == ("-" + b)[1..];
      NatToDecimalInjective(-i, -j);
    } else {
      NatToDecimalInjective(i, j);
    }
  }

  /** Only a float NaN or the string "nan" prints as "nan": None, a bool, an int, a list
      and a dict never do. */
  lemma OnlyNanPrintsNan(v: Json)
    requires !v.Float? && !v.Str?
    ensures PyStr(v) != "nan"
  {
    match v
    case Int(i) =>
      var s := IntToDecimal(i);
      assert s[0] != 'n';
    case List(_) =>
      assert PyStr(v)[0] == '[';
    case Dict(_) =>
      assert PyStr(v)[0] == '{';
    case _ =>
  }

  /** Joining one more part appends the separator and the part. */
  lemma {:induction false} JoinSnoc(sep: string, parts: seq<string>, p: string)
    requires parts != []
    ensures Join(sep, parts + [p]) == Join(sep, parts) + sep + p
  {
    if |parts| > 1 {
      assert (parts + [p])[1..] == parts[1..] + [p];
      JoinSnoc(sep, parts[1..], p);
    }
  }

  /** The length of a join: every part, and one separator between each two parts. */
  lemma {:induction false} JoinLength(sep: string, parts: seq<string>)
    requires parts != []
    ensures |Join(sep, parts)| == TotalLength(parts) + (|parts| - 1) * |sep|
  {
    if |parts| > 1 {
      JoinLength(sep, parts[1..]);
    }
  }

  /** Each part with `p` in front. */
  function Prefixed(p: string, parts: seq<string>): (r: seq<string>)
    ensures |r| == |parts| && forall i :: 0 <= i < |parts| ==> r[i] == p + parts[i]
  {
    seq(|parts|, i requires 0 <= i < |parts| => p + parts[i])
  }

  /** Joining with `sep + p` and putting `p` in front is joining the parts with `p` in front of
      each: `p + (sep + p).join(parts) == sep.join(p + x for x in parts)`. */
  lemma {:induction false} JoinPrefixed(sep: string, p: string, parts: seq<string>)
    requires parts != []
    ensures p + Join(sep + p, parts) == Join(sep, Prefixed(p, parts))
  {
    if |parts| > 1 {
      JoinPrefixed(sep, p, parts[1..]);
      assert Prefixed(p, parts)[1..] == Prefixed(p, parts[1..]);
      calc {
        p + Join(sep + p, parts);
        p + (parts[0] + (sep + p) + Join(sep + p, parts[1..]));
        (p + parts[0]) + sep + (p + Join(sep + p, parts[1..]));
        (p + parts[0]) + sep + Join(sep, Prefixed(p, parts[1..]));
      }
    }
  }

  function TotalLength(parts: seq<string>): nat
  {
    if parts == [] then 0 else |parts[0]| + TotalLength(parts[1..])
  }
}
