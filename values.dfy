/** Values as the integration sees them: the JSON-like contents of option
    dictionaries, form input and state-detection rules, with Python's
    truthiness, `dict.get` and `str.strip` written out. */
module Values {

  datatype Option<T> = None | Some(value: T)

  /** A Python value that can sit in a config entry's options or in form
      input. Floating-point numbers are not modelled. */
  datatype Value =
    | Null
    | Bool(b: bool)
    | Int(i: int)
    | Str(s: string)
    | List(items: seq<Value>)
    | Dict(entries: map<string, Value>)

  /** A Python `dict` with string keys. */
  type Dictionary = map<string, Value>

  /** Python truthiness: `None`, `False`, `0`, `""`, `[]` and `{}` are false. */
  predicate Truthy(v: Value)
  {
    match v
    case Null => false
    case Bool(b) => b
    case Int(i) => i != 0
    case Str(s) => s != ""
    case List(xs) => xs != []
    case Dict(m) => m != map[]
  }

  /** `d.get(k)`: the stored value, or `None` when the key is absent. */
  function Get(d: Dictionary, k: string): Value
  {
    if k in d then d[k] else Null
  }

  /** `d.get(k, default)`. */
  function GetOr(d: Dictionary, k: string, default: Value): Value
  {
    if k in d then d[k] else default
  }

  /** A dictionary whose values are all strings. */
  predicate IsStrDict(v: Value)
  {
    v.Dict? && forall k :: k in v.entries ==> v.entries[k].Str?
  }

  /** The strings of such a dictionary. */
  function StrEntries(v: Value): (m: map<string, string>)
    requires IsStrDict(v)
    ensures m.Keys == v.entries.Keys
    ensures forall k :: k in m ==> v.entries[k] == Str(m[k])
  {
    map k | k in v.entries :: v.entries[k].s
  }

  /** Python's `str.isspace` for one character. */
  predicate IsSpace(c: char)
  {
    var n := c as int;
    (9 <= n <= 13) || (28 <= n <= 32) || n == 0x85 || n == 0xA0 || n == 0x1680
    || (0x2000 <= n <= 0x200A) || n == 0x2028 || n == 0x2029 || n == 0x202F
    || n == 0x205F || n == 0x3000
  }

  predicate AllSpace(s: string)
  {
    forall i :: 0 <= i < |s| ==> IsSpace(s[i])
  }

  /** `s.lstrip()`: the longest suffix that does not start with whitespace. */
  function LStrip(s: string): (r: string)
    ensures |r| <= |s| && r == s[|s| - |r|..]
    ensures AllSpace(s[..|s| - |r|])
    ensures r == [] || !IsSpace(r[0])
  {
    if s != [] && IsSpace(s[0]) then LStrip(s[1..]) else s
  }

  /** `s.rstrip()`: the longest prefix that does not end with whitespace. */
  function RStrip(s: string): (r: string)
    ensures |r| <= |s| && r == s[..|r|]
    ensures AllSpace(s[|r|..])
    ensures r == [] || !IsSpace(r[|r| - 1])
  {
    if s != [] && IsSpace(s[|s| - 1]) then RStrip(s[..|s| - 1]) else s
  }

  /** `s.strip()`. */
  function Strip(s: string): (r: string)
    ensures r == [] || (!IsSpace(r[0]) && !IsSpace(r[|r| - 1]))
    ensures r == [] <==> AllSpace(s)
    ensures exists i, j :: 0 <= i <= j <= |s| && r == s[i..j] && AllSpace(s[..i]) && AllSpace(s[j..])
  {
    var l := LStrip(s);
    var r := RStrip(l);
    var i := |s| - |l|;
    SliceOfSuffix(s, l, r);
    StripIsEmpty(s, l, r);
    assert r != [] ==> r[0] == l[0];
    r
  }

  /** Cutting a prefix off a text and then a suffix off the rest leaves a
      slice of the text, followed by the suffix that was cut. */
  lemma SliceOfSuffix(s: string, l: string, r: string)
    requires |l| <= |s| && l == s[|s| - |l|..]
    requires |r| <= |l| && r == l[..|r|]
    ensures r == s[|s| - |l|..|s| - |l| + |r|]
    ensures s[|s| - |l| + |r|..] == l[|r|..]
  {
  }

  /** Stripping both ends leaves nothing exactly when the text is all
      whitespace. */
  lemma StripIsEmpty(s: string, l: string, r: string)
    requires l == LStrip(s) && r == RStrip(l)
    ensures r == [] <==> AllSpace(s)
  {
    var i := |s| - |l|;
    if r == [] {
      assert l[0..] == l;
      assert l == [];
      assert s[..i] == s;
    }
  }

  /** Stripping leading whitespace from whitespace followed by a text that
      does not itself start with whitespace gives back that text. */
  lemma {:induction false} LStripPadding(ws: string, t: string)
    requires AllSpace(ws)
    requires t == [] || !IsSpace(t[0])
    ensures LStrip(ws + t) == t
  {
    if ws == [] {
      assert ws + t == t;
    } else {
      assert (ws + t)[1..] == ws[1..] + t;
      LStripPadding(ws[1..], t);
    }
  }
}
